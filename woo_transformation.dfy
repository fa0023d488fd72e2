/**
  temporal/activities/WooCommerce/src/transformation.py: WooCommerce REST
  orders to 34-column rows for the column store.
 */
module WooTransformation {
  import opened Wrappers
  import opened Literals
  import opened DateTimes
  import opened Values

  /** A column of the orders table. */
  datatype Column =
    | Id
    | ConnectedId
    | ParentId
    | Number
    | OrderKey
    | Status
    | Currency
    | Version
    | PricesIncludeTax
    | DateCreated
    | DateModified
    | DiscountTotal
    | DiscountTax
    | ShippingTotal
    | ShippingTax
    | CartTax
    | Total
    | TotalTax
    | CustomerId
    | CustomerIpAddress
    | CustomerUserAgent
    | PaymentMethod
    | PaymentMethodTitle
    | TransactionId
    | CustomerNote
    | BillingJson
    | ShippingJson
    | LineItemsJson
    | ShippingLinesJson
    | TaxLinesJson
    | FeeLinesJson
    | CouponLinesJson
    | MetaDataJson
    | BatchedAt

  /** The column's name in the table. */
  function ColumnName(c: Column): string {
    match c
    case Id => "id"
    case ConnectedId => "connected_id"
    case ParentId => "parent_id"
    case Number => "number"
    case OrderKey => "order_key"
    case Status => "status"
    case Currency => "currency"
    case Version => "version"
    case PricesIncludeTax => "prices_include_tax"
    case DateCreated => "date_created"
    case DateModified => "date_modified"
    case DiscountTotal => "discount_total"
    case DiscountTax => "discount_tax"
    case ShippingTotal => "shipping_total"
    case ShippingTax => "shipping_tax"
    case CartTax => "cart_tax"
    case Total => "total"
    case TotalTax => "total_tax"
    case CustomerId => "customer_id"
    case CustomerIpAddress => "customer_ip_address"
    case CustomerUserAgent => "customer_user_agent"
    case PaymentMethod => "payment_method"
    case PaymentMethodTitle => "payment_method_title"
    case TransactionId => "transaction_id"
    case CustomerNote => "customer_note"
    case BillingJson => "billing_json"
    case ShippingJson => "shipping_json"
    case LineItemsJson => "line_items_json"
    case ShippingLinesJson => "shipping_lines_json"
    case TaxLinesJson => "tax_lines_json"
    case FeeLinesJson => "fee_lines_json"
    case CouponLinesJson => "coupon_lines_json"
    case MetaDataJson => "meta_data_json"
    case BatchedAt => "batchedAt"
  }

  /** `column_names`: the table's column order. */
  const Columns: seq<Column> := seq(34, ColumnAt)

  /** The entry at position `i` of `column_names`. */
  function ColumnAt(i: int): Column
    requires 0 <= i < 34
  {
    match i
    case 0 => Id
    case 1 => ConnectedId
    case 2 => ParentId
    case 3 => Number
    case 4 => OrderKey
    case 5 => Status
    case 6 => Currency
    case 7 => Version
    case 8 => PricesIncludeTax
    case 9 => DateCreated
    case 10 => DateModified
    case 11 => DiscountTotal
    case 12 => DiscountTax
    case 13 => ShippingTotal
    case 14 => ShippingTax
    case 15 => CartTax
    case 16 => Total
    case 17 => TotalTax
    case 18 => CustomerId
    case 19 => CustomerIpAddress
    case 20 => CustomerUserAgent
    case 21 => PaymentMethod
    case 22 => PaymentMethodTitle
    case 23 => TransactionId
    case 24 => CustomerNote
    case 25 => BillingJson
    case 26 => ShippingJson
    case 27 => LineItemsJson
    case 28 => ShippingLinesJson
    case 29 => TaxLinesJson
    case 30 => FeeLinesJson
    case 31 => CouponLinesJson
    case 32 => MetaDataJson
    case 33 => BatchedAt
  }

  /** Position of a column in `Columns`. */
  function Position(c: Column): nat {
    match c
    case Id => 0
    case ConnectedId => 1
    case ParentId => 2
    case Number => 3
    case OrderKey => 4
    case Status => 5
    case Currency => 6
    case Version => 7
    case PricesIncludeTax => 8
    case DateCreated => 9
    case DateModified => 10
    case DiscountTotal => 11
    case DiscountTax => 12
    case ShippingTotal => 13
    case ShippingTax => 14
    case CartTax => 15
    case Total => 16
    case TotalTax => 17
    case CustomerId => 18
    case CustomerIpAddress => 19
    case CustomerUserAgent => 20
    case PaymentMethod => 21
    case PaymentMethodTitle => 22
    case TransactionId => 23
    case CustomerNote => 24
    case BillingJson => 25
    case ShippingJson => 26
    case LineItemsJson => 27
    case ShippingLinesJson => 28
    case TaxLinesJson => 29
    case FeeLinesJson => 30
    case CouponLinesJson => 31
    case MetaDataJson => 32
    case BatchedAt => 33
  }

  /** The `row` dict of one order: one entry per column. */
  datatype Row = Row(
    id: Cell,
    connectedId: Cell,
    parentId: Cell,
    number: Cell,
    orderKey: Cell,
    status: Cell,
    currency: Cell,
    version: Cell,
    pricesIncludeTax: Cell,
    dateCreated: Cell,
    dateModified: Cell,
    discountTotal: Cell,
    discountTax: Cell,
    shippingTotal: Cell,
    shippingTax: Cell,
    cartTax: Cell,
    total: Cell,
    totalTax: Cell,
    customerId: Cell,
    customerIpAddress: Cell,
    customerUserAgent: Cell,
    paymentMethod: Cell,
    paymentMethodTitle: Cell,
    transactionId: Cell,
    customerNote: Cell,
    billingJson: Cell,
    shippingJson: Cell,
    lineItemsJson: Cell,
    shippingLinesJson: Cell,
    taxLinesJson: Cell,
    feeLinesJson: Cell,
    couponLinesJson: Cell,
    metaDataJson: Cell,
    batchedAt: Cell)

  /** `row[col]`. */
  function Lookup(row: Row, c: Column): Cell {
    match c
    case Id => row.id
    case ConnectedId => row.connectedId
    case ParentId => row.parentId
    case Number => row.number
    case OrderKey => row.orderKey
    case Status => row.status
    case Currency => row.currency
    case Version => row.version
    case PricesIncludeTax => row.pricesIncludeTax
    case DateCreated => row.dateCreated
    case DateModified => row.dateModified
    case DiscountTotal => row.discountTotal
    case DiscountTax => row.discountTax
    case ShippingTotal => row.shippingTotal
    case ShippingTax => row.shippingTax
    case CartTax => row.cartTax
    case Total => row.total
    case TotalTax => row.totalTax
    case CustomerId => row.customerId
    case CustomerIpAddress => row.customerIpAddress
    case CustomerUserAgent => row.customerUserAgent
    case PaymentMethod => row.paymentMethod
    case PaymentMethodTitle => row.paymentMethodTitle
    case TransactionId => row.transactionId
    case CustomerNote => row.customerNote
    case BillingJson => row.billingJson
    case ShippingJson => row.shippingJson
    case LineItemsJson => row.lineItemsJson
    case ShippingLinesJson => row.shippingLinesJson
    case TaxLinesJson => row.taxLinesJson
    case FeeLinesJson => row.feeLinesJson
    case CouponLinesJson => row.couponLinesJson
    case MetaDataJson => row.metaDataJson
    case BatchedAt => row.batchedAt
  }

  /** `column_names` has 34 entries and none twice. */
  lemma ColumnsDistinct()
    ensures |Columns| == 34 && Distinct(Columns)
  {
    assert forall i :: 0 <= i < |Columns| ==> Position(Columns[i]) == i;
  }

  /**
    `parse_datetime`: None for a falsy value or one `fromisoformat` rejects
    (after every 'Z' became '+00:00'); a naive result is stamped UTC. The
    `'Z' in dt_str` test also runs on lists and dicts: when it finds a 'Z'
    element or key, the `.replace` that follows raises AttributeError,
    which the `except (ValueError, TypeError)` does not catch.
   */
  function ParseDatetime(v: Value): (r: Result<Option<DateTime>>)
    ensures !Truthy(v) ==> r == Ok(None)
    ensures r.Ok? && r.value.Some? ==> v.Str? && Valid(r.value.value) && r.value.value.offset.Some?
    ensures r.Err? <==> (v.List? && Str("Z") in v.items) || (v.Object? && "Z" in v.fields)
  {
    if !Truthy(v) then Ok(None)
    else
      match v
      case Str(s) =>
        (match FromIsoFormat(ReplaceZ(s))
         case Some(dt) => Ok(Some(if dt.offset.None? then dt.(offset := Some(0)) else dt))
         case None => Ok(None))
      case List(items) => if Str("Z") in items then Err(AttributeError) else Ok(None)
      case Object(f) => if "Z" in f then Err(AttributeError) else Ok(None)
      case _ => Ok(None)
  }

  /** What `isoformat()` writes reads back as the same instant, a naive one as UTC. */
  lemma ParseDatetimeIsoFormat(dt: DateTime)
    requires Valid(dt)
    ensures ParseDatetime(Str(IsoFormat(dt))) == Ok(Some(if dt.offset.None? then dt.(offset := Some(0)) else dt))
  {
    IsoFormatHasNoZ(dt);
    IsoRoundTrip(dt);
  }

  /** A '...Z' timestamp is read as the same wall-clock time at offset +00:00. */
  lemma ParseDatetimeZulu(s: string)
    requires StrptimeZ(s).Some?
    ensures ParseDatetime(Str(s)) == Ok(Some(StrptimeZ(s).value.(offset := Some(0))))
  {
    StrictAndIsoAgree(s);
    assert Truthy(Str(s));
  }

  /** `to_uint8` (a nested helper of the transform). */
  function ToUint8(v: Value): int {
    match v
    case Bool(b) => if b then 1 else 0
    case Str(s) => if Lower(s) in ["true", "yes", "1"] then 1 else 0
    case _ => if Truthy(v) then 1 else 0
  }

  /** `to_uint8` maps a bool to 1/0, a string to 1 iff its lower case is 'true', 'yes' or '1', anything else by truthiness. */
  lemma ToUint8Spec(v: Value)
    ensures ToUint8(v) == 0 || ToUint8(v) == 1
    ensures v.Bool? ==> (ToUint8(v) == 1 <==> v.b)
    ensures v.Str? ==> (ToUint8(v) == 1 <==> Lower(v.s) in ["true", "yes", "1"])
    ensures !v.Bool? && !v.Str? ==> (ToUint8(v) == 1 <==> Truthy(v))
  {
  }

  /** `to_json`: `json.dumps(value) if value else '{}'`. */
  function ToJson(v: Value): Cell {
    if Truthy(v) then JsonCell(v) else EmptyObjectJson
  }

  /** `to_json_array`: `json.dumps(value) if value else '[]'`. */
  function ToJsonArray(v: Value): Cell {
    if Truthy(v) then JsonCell(v) else EmptyArrayJson
  }

  /**
    A decoded JSON value always serialises, so the `except` branches of
    `to_json`/`to_json_array` are never taken: the '{}'/'[]' defaults appear
    exactly for falsy values, and anything else is its own serialisation.
   */
  lemma ToJsonSpec(v: Value)
    ensures ToJson(v) == EmptyObjectJson <==> !Truthy(v)
    ensures ToJsonArray(v) == EmptyArrayJson <==> !Truthy(v)
    ensures Truthy(v) ==> ToJson(v) == JsonCell(v) && ToJsonArray(v) == JsonCell(v)
  {
  }

  /** `safe_decimal`: `Decimal(str(value))`, or Decimal('0.00') for None and whenever that raises. */
  function SafeDecimal(v: Value): real {
    if v.Null? then 0.0
    else match ToDecimal(v)
      case Ok(d) => d
      case Err(_) => 0.0
  }

  /** `safe_decimal` is 0.00 for None and for an unconvertible value, and the converted value otherwise. */
  lemma SafeDecimalSpec(v: Value)
    ensures v.Null? || ToDecimal(v).Err? ==> SafeDecimal(v) == 0.0
    ensures !v.Null? && ToDecimal(v).Ok? ==> SafeDecimal(v) == ToDecimal(v).value
    ensures forall s :: v == Str(s) && AllDigits(s) && |s| > 0 ==> SafeDecimal(v) == DigitsValue(s) as real
  {
  }

  /** What every row of one run shares: the connection id and the batch stamp. */
  datatype Stamp = Stamp(connectionId: string, batchedAt: DateTime)

  /**
    The `row` dict built for one order, fields evaluated in the order the
    dict literal lists them. `int()` and `parse_datetime` are the only
    conversions that can raise; the first that does aborts the row.
   */
  function PrepareRow(stamp: Stamp, order: Dict): (r: Result<Row>)
    ensures r.Ok? ==> r.value.connectedId == TextCell(stamp.connectionId) && r.value.batchedAt == TimeCell(stamp.batchedAt)
  {
    var id :- ToInt(Get(order, "id", Int(0)));
    var parentId :- ToInt(Get(order, "parent_id", Int(0)));
    var created :- ParseDatetime(Get0(order, "date_created"));
    var modified :- ParseDatetime(Get0(order, "date_modified"));
    var customerId :- ToInt(Get(order, "customer_id", Int(0)));
    Ok(Row(
      id := IntCell(id),
      connectedId := TextCell(stamp.connectionId),
      parentId := IntCell(parentId),
      number := PyStr(Get(order, "number", Str(""))),
      orderKey := PyStr(Get(order, "order_key", Str(""))),
      status := PyStr(Get(order, "status", Str(""))),
      currency := PyStr(Get(order, "currency", Str(""))),
      version := PyStr(Get(order, "version", Str(""))),
      pricesIncludeTax := IntCell(ToUint8(Get0(order, "prices_include_tax"))),
      dateCreated := TimeOrNull(created),
      dateModified := TimeOrNull(modified),
      discountTotal := DecimalCell(SafeDecimal(Get0(order, "discount_total"))),
      discountTax := DecimalCell(SafeDecimal(Get0(order, "discount_tax"))),
      shippingTotal := DecimalCell(SafeDecimal(Get0(order, "shipping_total"))),
      shippingTax := DecimalCell(SafeDecimal(Get0(order, "shipping_tax"))),
      cartTax := DecimalCell(SafeDecimal(Get0(order, "cart_tax"))),
      total := DecimalCell(SafeDecimal(Get0(order, "total"))),
      totalTax := DecimalCell(SafeDecimal(Get0(order, "total_tax"))),
      customerId := IntCell(customerId),
      customerIpAddress := PyStr(Get(order, "customer_ip_address", Str(""))),
      customerUserAgent := PyStr(Get(order, "customer_user_agent", Str(""))),
      paymentMethod := PyStr(Get(order, "payment_method", Str(""))),
      paymentMethodTitle := PyStr(Get(order, "payment_method_title", Str(""))),
      transactionId := PyStr(Get(order, "transaction_id", Str(""))),
      customerNote := PyStr(Get(order, "customer_note", Str(""))),
      billingJson := ToJson(Get0(order, "billing")),
      shippingJson := ToJson(Get0(order, "shipping")),
      lineItemsJson := ToJsonArray(Get0(order, "line_items")),
      shippingLinesJson := ToJsonArray(Get0(order, "shipping_lines")),
      taxLinesJson := ToJsonArray(Get0(order, "tax_lines")),
      feeLinesJson := ToJsonArray(Get0(order, "fee_lines")),
      couponLinesJson := ToJsonArray(Get0(order, "coupon_lines")),
      metaDataJson := ToJsonArray(Get0(order, "meta_data")),
      batchedAt := TimeCell(stamp.batchedAt)
    ))
  }

  /** An order with none of the keys gets every documented default. */
  lemma EmptyOrderDefaults(connectionId: string, batchedAt: DateTime)
    ensures PrepareRow(Stamp(connectionId, batchedAt), map[]) == Ok(Row(
      IntCell(0), TextCell(connectionId), IntCell(0), TextCell(""), TextCell(""), TextCell(""),
      TextCell(""), TextCell(""), IntCell(0), NullCell, NullCell,
      DecimalCell(0.0), DecimalCell(0.0), DecimalCell(0.0), DecimalCell(0.0), DecimalCell(0.0),
      DecimalCell(0.0), DecimalCell(0.0), IntCell(0),
      TextCell(""), TextCell(""), TextCell(""), TextCell(""), TextCell(""), TextCell(""),
      EmptyObjectJson, EmptyObjectJson,
      EmptyArrayJson, EmptyArrayJson, EmptyArrayJson, EmptyArrayJson, EmptyArrayJson, EmptyArrayJson,
      TimeCell(batchedAt)))
  {
  }

  /** `int(order.get('id', 0))` is unguarded: a present `id` that is not an integer literal aborts the row. */
  lemma IdIsUnguarded(order: Dict, connectionId: string, batchedAt: DateTime)
    requires "id" in order && ToInt(order["id"]).Err?
    ensures PrepareRow(Stamp(connectionId, batchedAt), order) == Err(ToInt(order["id"]).error)
  {
  }

  /** The same for `customer_id`, once the fields before it succeeded. */
  lemma CustomerIdIsUnguarded(order: Dict, connectionId: string, batchedAt: DateTime)
    requires "id" !in order && "parent_id" !in order && "date_created" !in order && "date_modified" !in order
    requires "customer_id" in order && ToInt(order["customer_id"]).Err?
    ensures PrepareRow(Stamp(connectionId, batchedAt), order) == Err(ToInt(order["customer_id"]).error)
  {
  }

  /** A row fails exactly when one of its unguarded conversions raises. */
  lemma PrepareRowFails(order: Dict, connectionId: string, batchedAt: DateTime)
    ensures PrepareRow(Stamp(connectionId, batchedAt), order).Err? <==>
      ToInt(Get(order, "id", Int(0))).Err? || ToInt(Get(order, "parent_id", Int(0))).Err?
      || ParseDatetime(Get0(order, "date_created")).Err? || ParseDatetime(Get0(order, "date_modified")).Err?
      || ToInt(Get(order, "customer_id", Int(0))).Err?
  {
  }

  /** What `transform_woo_for_clickhouse` returns when the clock reads `now`. */
  function Transform(orders: seq<Dict>, connectionId: string, now: DateTime): Result<Batch>
    requires Valid(now)
  {
    var rows :- MapResult(Stamp(connectionId, now), orders, PrepareRow);
    Ok(Batch(OrderRows(rows, Columns, Lookup), Names(Columns, ColumnName), IsoFormat(now)))
  }

  /**
    `transform_woo_for_clickhouse`: the rows of all orders, then each row
    read out in column order; the clock reading `now` is taken once for the
    whole batch.
   */
  method TransformWooForClickhouse(orders: seq<Dict>, connectionId: string, now: DateTime)
    returns (r: Result<Batch>)
    requires Valid(now)
    ensures r == Transform(orders, connectionId, now)
  {
    var prepared :- PrepareData(Stamp(connectionId, now), orders, PrepareRow);
    var ordered := OrderData(prepared, Columns, Lookup);
    TransformOk(orders, connectionId, now, prepared);
    r := Ok(Batch(ordered, Names(Columns, ColumnName), IsoFormat(now)));
  }

  /** When every row is built, the batch is those rows read out in column order. */
  lemma TransformOk(orders: seq<Dict>, connectionId: string, now: DateTime, rows: seq<Row>)
    requires Valid(now) && MapResult(Stamp(connectionId, now), orders, PrepareRow) == Ok(rows)
    ensures Transform(orders, connectionId, now) == Ok(Batch(OrderRows(rows, Columns, Lookup), Names(Columns, ColumnName), IsoFormat(now)))
  {
  }

  /** A row read out in column order has 34 entries, `connected_id` second and `batchedAt` last. */
  lemma OrderedRowShape(row: Row)
    ensures var cells := OrderRow(row, Columns, Lookup);
      |cells| == 34 && cells[1] == row.connectedId && cells[33] == row.batchedAt
  {
  }

  /** One row per order in input order, each the order's row read out in column order; the third result is the stamp's ISO text. */
  lemma TransformShape(orders: seq<Dict>, connectionId: string, now: DateTime)
    requires Valid(now) && Transform(orders, connectionId, now).Ok?
    ensures var b := Transform(orders, connectionId, now).value;
      && b.batchedAt == IsoFormat(now)
      && b.columns == Names(Columns, ColumnName)
      && |b.rows| == |orders|
      && forall k :: 0 <= k < |orders| ==>
           && PrepareRow(Stamp(connectionId, now), orders[k]).Ok?
           && b.rows[k] == OrderRow(PrepareRow(Stamp(connectionId, now), orders[k]).value, Columns, Lookup)
  {
    MapResultElements(Stamp(connectionId, now), orders, PrepareRow);
  }

  /** Every output row has 34 entries and carries the connection id and the one batch stamp. */
  lemma TransformStamps(orders: seq<Dict>, connectionId: string, now: DateTime)
    requires Valid(now) && Transform(orders, connectionId, now).Ok?
    ensures var b := Transform(orders, connectionId, now).value;
      forall k :: 0 <= k < |b.rows| ==>
        |b.rows[k]| == 34 && b.rows[k][1] == TextCell(connectionId) && b.rows[k][33] == TimeCell(now)
  {
    TransformShape(orders, connectionId, now);
    var b := Transform(orders, connectionId, now).value;
    forall k | 0 <= k < |b.rows|
      ensures |b.rows[k]| == 34 && b.rows[k][1] == TextCell(connectionId) && b.rows[k][33] == TimeCell(now)
    {
      OrderedRowShape(PrepareRow(Stamp(connectionId, now), orders[k]).value);
    }
  }
}
