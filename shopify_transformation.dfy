/**
  temporal/activities/Shopify/src/transformation.py: `coerce_order_data`
  normalises one GraphQL order into a dict with a fixed set of keys, and
  `transform_for_clickhouse` turns orders into 42-column rows for the
  column store.
 */
module ShopifyTransformation {
  import opened Wrappers
  import opened Literals
  import opened DateTimes
  import opened Values

  /**
    `parse_datetime(dt_str, with_microseconds)`: None for a falsy value.
    With microseconds the text goes to `fromisoformat` after 'Z' became
    '+00:00'; without, only the exact pattern '%Y-%m-%dT%H:%M:%SZ' is
    accepted. Nothing is caught. A `Shown` value is the text `safe_str`
    made of a non-string, which neither parser accepts: ValueError.
   */
  function ParseDatetime(v: Value, withMicroseconds: bool): (r: Result<Option<DateTime>>)
    ensures !Truthy(v) ==> r == Ok(None)
    ensures Truthy(v) && r.Ok? ==> r.value.Some? && v.Str? && Valid(r.value.value)
  {
    if !Truthy(v) then Ok(None)
    else if withMicroseconds then
      var dt :- FromIsoText(v);
      Ok(Some(dt))
    else
      match v
      case Str(s) =>
        (match StrptimeZ(s)
         case Some(dt) => Ok(Some(dt))
         case None => Err(ValueError))
      case Shown(_) => Err(ValueError)
      case _ => Err(TypeError)
  }

  /**
    A timestamp that `safe_str` turned into text from a number, a bool, a
    list or a dict raises ValueError on either path, as `fromisoformat` and
    `strptime` reject that text.
   */
  lemma ParseDatetimeShown(v: Value, withMicroseconds: bool)
    ensures ParseDatetime(Shown(v), withMicroseconds) == Err(ValueError)
  {
  }

  /** Without microseconds a non-empty string parses exactly when it has the strict shape, to that naive value. */
  lemma ParseDatetimeStrictOnly(s: string)
    requires |s| > 0
    ensures ParseDatetime(Str(s), false).Ok? <==> StrptimeZ(s).Some?
    ensures StrptimeZ(s).Some? ==> ParseDatetime(Str(s), false) == Ok(Some(StrptimeZ(s).value))
    ensures StrptimeZ(s).None? ==> ParseDatetime(Str(s), false) == Err(ValueError)
  {
    assert Truthy(Str(s));
  }

  /** On the microsecond path a strict '...Z' timestamp is the same wall-clock time at offset +00:00. */
  lemma ParseDatetimeZulu(s: string)
    requires StrptimeZ(s).Some?
    ensures ParseDatetime(Str(s), true) == Ok(Some(StrptimeZ(s).value.(offset := Some(0))))
  {
    StrictAndIsoAgree(s);
    assert Truthy(Str(s));
  }

  /** What `isoformat()` writes reads back as the same value on the microsecond path. */
  lemma ParseDatetimeIsoFormat(dt: DateTime)
    requires Valid(dt)
    ensures ParseDatetime(Str(IsoFormat(dt)), true) == Ok(Some(dt))
  {
    IsoFormatHasNoZ(dt);
    IsoRoundTrip(dt);
  }

  // ---------------------------------------------------------------------------
  // coerce_order_data

  /** `safe_str(value)` (default None): `str(value)` unless the value is None. */
  function SafeStr(v: Value): Result<Value> {
    Ok(match v
       case Null => Null
       case Str(_) => v
       case _ => Shown(v))
  }

  /** `safe_bool(value)` (default False): `bool(value)` unless the value is None. */
  function SafeBool(v: Value): Result<Value> {
    Ok(if v.Null? then Bool(false) else Bool(Truthy(v)))
  }

  /** `safe_int(value)` (default 0): `int(value)` unless the value is None; `int()` may raise. */
  function SafeInt(v: Value): Result<Value> {
    if v.Null? then Ok(Int(0))
    else
      var n :- ToInt(v);
      Ok(Int(n))
  }

  /**
    `safe_list(value)` (default []): `list(value)` unless the value is None.
    A list is copied and a string split into characters; numbers and bools
    raise TypeError.
   */
  function SafeList(v: Value): Result<Value> {
    match v
    case Null => Ok(List([]))
    case List(_) => Ok(v)
    case Str(s) => Ok(List(seq(|s|, i requires 0 <= i < |s| => Str([s[i]]))))
    case _ => Err(TypeError)
  }

  /** The conversions never fail except where `int()` or `list()` can, and None gives the default. */
  lemma SafeSpec(v: Value)
    ensures SafeStr(v).Ok? && SafeBool(v).Ok?
    ensures SafeStr(v).value == Null <==> v.Null?
    ensures SafeBool(v) == Ok(Bool(Truthy(v)))
    ensures v.Null? ==> SafeInt(v) == Ok(Int(0)) && SafeList(v) == Ok(List([]))
    ensures v.List? ==> SafeList(v) == Ok(v)
    ensures SafeInt(v).Ok? <==> v.Null? || ToInt(v).Ok?
  {
  }

  /**
    `extract_money_value(money_dict, default)`: the default for a falsy
    value; otherwise `money_dict.get('shopMoney', {}).get('amount')`, the
    default again when that is None, else `float` of it. `.get` on a
    non-dict raises AttributeError and `float` may raise.
   */
  function ExtractMoneyValue(v: Value, default: Value): Result<Value> {
    if !Truthy(v) then Ok(default)
    else
      var shopMoney :- GetIn(v, "shopMoney", Object(map[]));
      var amount :- GetIn(shopMoney, "amount", Null);
      if amount.Null? then Ok(default)
      else
        var x :- ToFloat(amount);
        Ok(Float(x))
  }

  /** The default exactly when the object is empty or has no amount; otherwise the amount as a float. */
  lemma ExtractMoneyValueSpec(v: Value, default: Value)
    ensures !Truthy(v) ==> ExtractMoneyValue(v, default) == Ok(default)
    ensures v.Object? && Truthy(v) && "shopMoney" !in v.fields ==> ExtractMoneyValue(v, default) == Ok(default)
    ensures v.Object? && Truthy(v) && "shopMoney" in v.fields && v.fields["shopMoney"].Object? ==>
      var shop := v.fields["shopMoney"].fields;
      && ("amount" !in shop || shop["amount"].Null? ==> ExtractMoneyValue(v, default) == Ok(default))
      && ("amount" in shop && ToFloat(shop["amount"]).Ok? ==> ExtractMoneyValue(v, default) == Ok(Float(ToFloat(shop["amount"]).value)))
  {
  }

  /** A money field of the order: default 0.0. */
  function Money(v: Value): Result<Value> {
    ExtractMoneyValue(v, Float(0.0))
  }

  /** A nullable money field of the order: None stays None, otherwise default None. */
  function NullableMoney(v: Value): Result<Value> {
    if v.Null? then Ok(Null) else ExtractMoneyValue(v, Null)
  }

  /** A money field of a line item: `extract_money_value` with its own default, the integer 0. */
  function ItemMoney(v: Value): Result<Value> {
    ExtractMoneyValue(v, Int(0))
  }

  const StringFields: seq<string> :=
    ["id", "name", "createdAt", "updatedAt", "currencyCode",
     "displayFinancialStatus", "displayFulfillmentStatus", "processedAt"]
  const NullableStringFields: seq<string> := ["cancelledAt", "cancelReason", "note", "discountCode"]
  const BoolFields: seq<string> := ["dutiesIncluded", "fullyPaid", "taxesIncluded", "taxExempt", "unpaid", "test"]
  const QuantityField: string := "currentSubtotalLineItemsQuantity"
  const MoneyFields: seq<string> :=
    ["totalDiscountsSet", "totalPriceSet", "totalReceivedSet", "totalRefundedSet",
     "totalShippingPriceSet", "totalTaxSet", "totalTipReceivedSet", "currentCartDiscountAmountSet",
     "currentShippingPriceSet", "currentSubtotalPriceSet", "currentTotalDiscountsSet",
     "currentTotalTaxSet", "currentTotalPriceSet", "netPaymentSet"]
  const NullableMoneyFields: seq<string> := ["currentTotalAdditionalFeesSet", "currentTotalDutiesSet"]
  const ArrayFields: seq<string> := ["lineItems", "paymentGatewayNames", "tags"]

  const ItemStringFields: seq<string> := ["id", "name", "sku", "title"]
  const ItemIntFields: seq<string> := ["quantity", "currentQuantity"]
  const ItemNullableFields: seq<string> := ["variantTitle"]
  const ItemMoneyFields: seq<string> :=
    ["originalTotalSet", "originalUnitPriceSet", "totalDiscountSet", "discountedUnitPriceAfterAllDiscountsSet"]

  /** Every key of `keys` is a key of `d`. */
  predicate HasKeys(d: Dict, keys: seq<string>) {
    forall i :: 0 <= i < |keys| ==> keys[i] in d
  }

  /** No key of `a` is a key of `b`. */
  predicate Disjoint(a: seq<string>, b: seq<string>) {
    forall i, j :: 0 <= i < |a| && 0 <= j < |b| ==> a[i] != b[j]
  }

  /**
    `for field in fields: result[field] = conv(source.get(field))`, the
    first exception escaping.
   */
  function Fill(result: Dict, source: Dict, fields: seq<string>, conv: Value -> Result<Value>): (r: Result<Dict>)
    ensures r.Ok? ==> result.Keys <= r.value.Keys && HasKeys(r.value, fields)
    ensures r.Ok? ==> forall k :: k in result && k !in fields ==> r.value[k] == result[k]
    decreases |fields|
  {
    if fields == [] then Ok(result)
    else
      var init :- Fill(result, source, fields[..|fields| - 1], conv);
      var v :- conv(Get0(source, fields[|fields| - 1]));
      Ok(init[fields[|fields| - 1] := v])
  }

  /** Each listed key ends up holding its converted value, when the keys are distinct. */
  lemma {:induction false} FillValues(result: Dict, source: Dict, fields: seq<string>, conv: Value -> Result<Value>)
    requires Distinct(fields) && Fill(result, source, fields, conv).Ok?
    ensures forall i :: 0 <= i < |fields| ==>
      conv(Get0(source, fields[i])).Ok? && Fill(result, source, fields, conv).value[fields[i]] == conv(Get0(source, fields[i])).value
    decreases |fields|
  {
    if fields != [] {
      var init := fields[..|fields| - 1];
      assert Distinct(init);
      FillValues(result, source, init, conv);
      assert forall i :: 0 <= i < |init| ==> fields[i] == init[i] && init[i] != fields[|fields| - 1];
    }
  }

  /** The loop after one more field: store its value, or stop with its exception. */
  lemma FillStep(result: Dict, source: Dict, fields: seq<string>, n: nat, conv: Value -> Result<Value>)
    requires n < |fields| && Fill(result, source, fields[..n], conv).Ok?
    ensures conv(Get0(source, fields[n])).Ok? ==>
      Fill(result, source, fields[..n + 1], conv) == Ok(Fill(result, source, fields[..n], conv).value[fields[n] := conv(Get0(source, fields[n])).value])
    ensures conv(Get0(source, fields[n])).Err? ==> Fill(result, source, fields, conv) == Err(conv(Get0(source, fields[n])).error)
  {
    assert fields[..n + 1][..n] == fields[..n];
    if conv(Get0(source, fields[n])).Err? {
      FillFailurePersists(result, source, fields, n + 1, conv);
    }
  }

  /** Once a prefix of the fields raises, the whole loop raises the same exception. */
  lemma {:induction false} FillFailurePersists(result: Dict, source: Dict, fields: seq<string>, n: nat, conv: Value -> Result<Value>)
    requires n <= |fields| && Fill(result, source, fields[..n], conv).Err?
    ensures Fill(result, source, fields, conv) == Fill(result, source, fields[..n], conv)
    decreases |fields|
  {
    if n < |fields| {
      var init := fields[..|fields| - 1];
      assert init[..n] == fields[..n];
      FillFailurePersists(result, source, init, n, conv);
    } else {
      assert fields[..n] == fields;
    }
  }

  /** One of the `for field in [...]` loops of `coerce_order_data`, updating `result` in place. */
  method FillLoop(result: Dict, source: Dict, fields: seq<string>, conv: Value -> Result<Value>) returns (r: Result<Dict>)
    ensures r == Fill(result, source, fields, conv)
  {
    var filled := result;
    for i := 0 to |fields|
      invariant Fill(result, source, fields[..i], conv) == Ok(filled)
    {
      var v := conv(Get0(source, fields[i]));
      FillStep(result, source, fields, i, conv);
      if v.Err? {
        return Err(v.error);
      }
      filled := filled[fields[i] := v.value];
    }
    assert fields[..|fields|] == fields;
    r := Ok(filled);
  }

  /** A dict with the eleven keys of a line item. */
  predicate IsItem(v: Value) {
    && v.Object?
    && HasKeys(v.fields, ItemStringFields) && HasKeys(v.fields, ItemIntFields)
    && HasKeys(v.fields, ItemNullableFields) && HasKeys(v.fields, ItemMoneyFields)
  }

  /** The `item` dict of one line-item node, keys in the order the literal lists them. */
  function Item(node: Dict): (r: Result<Value>)
    ensures r.Ok? ==> IsItem(r.value)
  {
    var a :- Fill(map[], node, ItemStringFields, SafeStr);
    var b :- Fill(a, node, ItemIntFields, SafeInt);
    match Fill(b, node, ItemNullableFields, SafeStr)
    case Err(e) => Err(e)
    case Ok(c) =>
      var d :- Fill(c, node, ItemMoneyFields, ItemMoney);
      Ok(Object(d))
  }

  /** `node = edge.get('node', {})`: None when the node is missing or empty (the edge is skipped), else its item. */
  function EdgeItem(edge: Value): Result<Option<Value>> {
    var node :- GetIn(edge, "node", Object(map[]));
    if !Truthy(node) then Ok(None)
    else
      match node
      case Object(f) =>
        var item :- Item(f);
        Ok(Some(item))
      case _ => Err(AttributeError)
  }

  /** The edge of a node that is kept: a dict edge whose `node` is a non-empty dict. */
  predicate Kept(edge: Value) {
    edge.Object? && "node" in edge.fields && edge.fields["node"].Object? && |edge.fields["node"].fields| > 0
  }

  /** An edge yields an item exactly when it is kept, and that item is its node's. */
  lemma EdgeItemSpec(edge: Value)
    requires EdgeItem(edge).Ok?
    ensures EdgeItem(edge).value.Some? <==> Kept(edge)
    ensures Kept(edge) ==> Item(edge.fields["node"].fields) == Ok(EdgeItem(edge).value.value)
  {
  }

  /**
    A loop that appends what `f(x)` yields for each `x` in order, skips the
    elements for which it yields None, and lets the first exception escape.
   */
  function Collect<T, R>(xs: seq<T>, f: T -> Result<Option<R>>): (r: Result<seq<R>>)
    ensures r.Ok? ==> |r.value| <= |xs|
  {
    if xs == [] then Ok([])
    else
      var init :- Collect(xs[..|xs| - 1], f);
      var y :- f(xs[|xs| - 1]);
      Ok(init + (if y.Some? then [y.value] else []))
  }

  /** The loop after one more element: append its result, skip it, or stop with its exception. */
  lemma CollectStep<T, R>(xs: seq<T>, n: nat, f: T -> Result<Option<R>>)
    requires n < |xs| && Collect(xs[..n], f).Ok?
    ensures f(xs[n]).Ok? ==> Collect(xs[..n + 1], f) == Ok(Collect(xs[..n], f).value
      + (if f(xs[n]).value.Some? then [f(xs[n]).value.value] else []))
    ensures f(xs[n]).Err? ==> Collect(xs, f) == Err(f(xs[n]).error)
  {
    assert xs[..n + 1][..n] == xs[..n];
    if f(xs[n]).Err? {
      CollectFailurePersists(xs, n + 1, f);
    }
  }

  /** Once a prefix raises, the whole loop raises the same exception. */
  lemma {:induction false} CollectFailurePersists<T, R>(xs: seq<T>, n: nat, f: T -> Result<Option<R>>)
    requires n <= |xs| && Collect(xs[..n], f).Err?
    ensures Collect(xs, f) == Collect(xs[..n], f)
    decreases |xs|
  {
    if n < |xs| {
      var init := xs[..|xs| - 1];
      assert init[..n] == xs[..n];
      CollectFailurePersists(init, n, f);
    } else {
      assert xs[..n] == xs;
    }
  }

  /** The nodes of the kept edges, in edge order. */
  function KeptNodes(edges: seq<Value>): seq<Dict> {
    if edges == [] then []
    else
      var last := edges[|edges| - 1];
      KeptNodes(edges[..|edges| - 1]) + (if Kept(last) then [last.fields["node"].fields] else [])
  }

  /** Edges with a missing or empty node are skipped; the rest become their nodes' items, in edge order. */
  lemma {:induction false} EdgeItemsKept(edges: seq<Value>)
    requires Collect(edges, EdgeItem).Ok?
    ensures var items := Collect(edges, EdgeItem).value;
      && |items| == |KeptNodes(edges)|
      && forall j :: 0 <= j < |items| ==> Item(KeptNodes(edges)[j]) == Ok(items[j])
    decreases |edges|
  {
    if edges != [] {
      var init := edges[..|edges| - 1];
      EdgeItemsKept(init);
      EdgeItemSpec(edges[|edges| - 1]);
    }
  }

  /** Every line item is a dict with the eleven keys. */
  lemma ItemKeys(edges: seq<Value>)
    requires Collect(edges, EdgeItem).Ok?
    ensures forall item :: item in Collect(edges, EdgeItem).value ==> IsItem(item)
  {
    EdgeItemsKept(edges);
    var items := Collect(edges, EdgeItem).value;
    forall item | item in items
      ensures IsItem(item)
    {
      var j :| 0 <= j < |items| && items[j] == item;
      assert Item(KeptNodes(edges)[j]) == Ok(item);
    }
  }

  /** `order_data.get('lineItems', {}).get('edges', [])`, iterated: a string or dict yields elements with no `.get`. */
  function EdgesOf(order: Dict): Result<seq<Value>> {
    var edges :- GetIn(Get(order, "lineItems", Object(map[])), "edges", List([]));
    match edges
    case List(items) => Ok(items)
    case Str(s) => if s == [] then Ok([]) else Err(AttributeError)
    case Object(f) => if |f| == 0 then Ok([]) else Err(AttributeError)
    case _ => Err(TypeError)
  }

  /** The `line_items` list of an order. */
  function LineItemsOf(order: Dict): Result<seq<Value>> {
    var edges :- EdgesOf(order);
    Collect(edges, EdgeItem)
  }

  /** The line-item loop: append the item of each edge, `continue` past an empty node. */
  method CollectLineItems(order: Dict) returns (r: Result<seq<Value>>)
    ensures r == LineItemsOf(order)
  {
    var edges :- EdgesOf(order);
    var items: seq<Value> := [];
    for i := 0 to |edges|
      invariant Collect(edges[..i], EdgeItem) == Ok(items)
    {
      var item := EdgeItem(edges[i]);
      CollectStep(edges, i, EdgeItem);
      if item.Err? {
        return Err(item.error);
      }
      if item.value.None? {
        assert items + [] == items;
        continue;
      }
      items := items + [item.value.value];
    }
    assert edges[..|edges|] == edges;
    r := Ok(items);
  }

  /** The first four groups of `coerce_order_data`: strings, nullable strings, booleans and the quantity. */
  function Scalars(order: Dict): (r: Result<Dict>)
    ensures r.Ok? ==> (HasKeys(r.value, StringFields) && HasKeys(r.value, NullableStringFields)
      && HasKeys(r.value, BoolFields) && QuantityField in r.value)
  {
    var r1 :- Fill(map[], order, StringFields, SafeStr);
    var r2 :- Fill(r1, order, NullableStringFields, SafeStr);
    var r3 :- Fill(r2, order, BoolFields, SafeBool);
    var quantity :- SafeInt(Get0(order, QuantityField));
    Ok(r3[QuantityField := quantity])
  }

  /** Then the money fields and the nullable money fields. */
  function Amounts(order: Dict): (r: Result<Dict>)
    ensures r.Ok? ==> (Scalars(order).Ok? && Scalars(order).value.Keys <= r.value.Keys
      && HasKeys(r.value, MoneyFields) && HasKeys(r.value, NullableMoneyFields))
  {
    var scalars :- Scalars(order);
    var r5 :- Fill(scalars, order, MoneyFields, Money);
    Fill(r5, order, NullableMoneyFields, NullableMoney)
  }

  /** What `coerce_order_data` returns: then the line items and the two arrays. */
  function Coerce(order: Dict): (r: Result<Dict>)
    ensures r.Ok? ==> Amounts(order).Ok? && Amounts(order).value.Keys <= r.value.Keys && HasKeys(r.value, ArrayFields)
  {
    var amounts :- Amounts(order);
    var items :- LineItemsOf(order);
    var gateways :- SafeList(Get0(order, "paymentGatewayNames"));
    var tags :- SafeList(Get0(order, "tags"));
    Ok(amounts["lineItems" := List(items)]["paymentGatewayNames" := gateways]["tags" := tags])
  }

  /** `coerce_order_data`: `result` filled group by group, then the line items and the two arrays. */
  method CoerceOrderData(order: Dict) returns (r: Result<Dict>)
    ensures r == Coerce(order)
  {
    var result: Dict := map[];
    result :- FillLoop(result, order, StringFields, SafeStr);
    result :- FillLoop(result, order, NullableStringFields, SafeStr);
    result :- FillLoop(result, order, BoolFields, SafeBool);
    var quantity :- SafeInt(Get0(order, QuantityField));
    result := result[QuantityField := quantity];
    assert Scalars(order) == Ok(result);
    result :- FillLoop(result, order, MoneyFields, Money);
    result :- FillLoop(result, order, NullableMoneyFields, NullableMoney);
    assert Amounts(order) == Ok(result);
    var items :- CollectLineItems(order);
    var gateways :- SafeList(Get0(order, "paymentGatewayNames"));
    var tags :- SafeList(Get0(order, "tags"));
    result := result["lineItems" := List(items)];
    result := result["paymentGatewayNames" := gateways];
    result := result["tags" := tags];
    r := Ok(result);
  }

  /** Whatever keys the order has, the coerced order has every listed key. */
  lemma CoerceKeys(order: Dict)
    requires Coerce(order).Ok?
    ensures var r := Coerce(order).value;
      && HasKeys(r, StringFields) && HasKeys(r, NullableStringFields) && HasKeys(r, BoolFields)
      && QuantityField in r && HasKeys(r, MoneyFields) && HasKeys(r, NullableMoneyFields) && HasKeys(r, ArrayFields)
  {
    var r := Coerce(order).value;
    var amounts := Amounts(order).value;
    var scalars := Scalars(order).value;
    assert scalars.Keys <= r.Keys;
  }

  /** No plain string key repeats or is written again by a later group of the first four. */
  lemma StringFieldsApart()
    ensures Distinct(StringFields) && Disjoint(StringFields, NullableStringFields) && Disjoint(StringFields, BoolFields)
    ensures Disjoint(StringFields, [QuantityField])
  {
  }

  /** No nullable string key or boolean key repeats or is written again by a later group of the first four. */
  lemma FlagFieldsApart()
    ensures Distinct(NullableStringFields) && Disjoint(NullableStringFields, BoolFields)
    ensures Disjoint(NullableStringFields, [QuantityField])
    ensures Distinct(BoolFields) && Disjoint(BoolFields, [QuantityField])
  {
  }

  /** No money key repeats, and the arrays come after them under other keys. */
  lemma AmountFieldsApart()
    ensures Distinct(MoneyFields) && Distinct(NullableMoneyFields) && Disjoint(MoneyFields, NullableMoneyFields)
  {
  }

  /** The string keys are not overwritten by the later groups. */
  lemma StringsNotAmounts()
    ensures Disjoint(StringFields, MoneyFields) && Disjoint(StringFields, NullableMoneyFields) && Disjoint(StringFields, ArrayFields)
    ensures Disjoint(NullableStringFields, MoneyFields) && Disjoint(NullableStringFields, NullableMoneyFields)
    ensures Disjoint(NullableStringFields, ArrayFields)
  {
  }

  /** The boolean keys and the quantity are not overwritten by the later groups. */
  lemma BoolsNotAmounts()
    ensures Disjoint(BoolFields, MoneyFields) && Disjoint(BoolFields, NullableMoneyFields) && Disjoint(BoolFields, ArrayFields)
    ensures QuantityField !in MoneyFields && QuantityField !in NullableMoneyFields && QuantityField !in ArrayFields
  {
  }

  /** The money keys are not overwritten by the line items or the arrays. */
  lemma MoneyNotArrays()
    ensures Disjoint(MoneyFields, ArrayFields) && Disjoint(NullableMoneyFields, ArrayFields)
  {
  }

  /** Keys that a loop does not list keep their values. */
  lemma FillKeeps(result: Dict, source: Dict, fields: seq<string>, conv: Value -> Result<Value>, keys: seq<string>)
    requires Fill(result, source, fields, conv).Ok? && Disjoint(keys, fields) && HasKeys(result, keys)
    ensures forall i :: 0 <= i < |keys| ==> Fill(result, source, fields, conv).value[keys[i]] == result[keys[i]]
  {
    forall i | 0 <= i < |keys|
      ensures Fill(result, source, fields, conv).value[keys[i]] == result[keys[i]]
    {
      assert keys[i] !in fields;
    }
  }

  /** The dict after the first four groups, written out loop by loop. */
  lemma ScalarsSteps(order: Dict)
    requires Scalars(order).Ok?
    ensures var r1 := Fill(map[], order, StringFields, SafeStr);
      && r1.Ok?
      && var r2 := Fill(r1.value, order, NullableStringFields, SafeStr);
      && r2.Ok?
      && var r3 := Fill(r2.value, order, BoolFields, SafeBool);
      && r3.Ok? && SafeInt(Get0(order, QuantityField)).Ok?
      && Scalars(order).value == r3.value[QuantityField := SafeInt(Get0(order, QuantityField)).value]
  {
  }

  /** After the first four groups each plain string key holds `safe_str(order_data.get(key))`. */
  lemma StringValues(order: Dict)
    requires Scalars(order).Ok?
    ensures forall i :: 0 <= i < |StringFields| ==> SafeStr(Get0(order, StringFields[i])) == Ok(Scalars(order).value[StringFields[i]])
  {
    ScalarsSteps(order);
    StringFieldsApart();
    var r1 := Fill(map[], order, StringFields, SafeStr).value;
    var r2 := Fill(r1, order, NullableStringFields, SafeStr).value;
    var r3 := Fill(r2, order, BoolFields, SafeBool).value;
    FillValues(map[], order, StringFields, SafeStr);
    FillKeeps(r1, order, NullableStringFields, SafeStr, StringFields);
    FillKeeps(r2, order, BoolFields, SafeBool, StringFields);
    forall i | 0 <= i < |StringFields|
      ensures SafeStr(Get0(order, StringFields[i])) == Ok(Scalars(order).value[StringFields[i]])
    {
      var k := StringFields[i];
      assert k != [QuantityField][0];
      assert Scalars(order).value[k] == r3[k];
    }
  }

  /** After the first four groups each nullable string key and each boolean key holds its conversion. */
  lemma FlagValues(order: Dict)
    requires Scalars(order).Ok?
    ensures var r := Scalars(order).value;
      && (forall i :: 0 <= i < |NullableStringFields| ==> SafeStr(Get0(order, NullableStringFields[i])) == Ok(r[NullableStringFields[i]]))
      && (forall i :: 0 <= i < |BoolFields| ==> SafeBool(Get0(order, BoolFields[i])) == Ok(r[BoolFields[i]]))
      && SafeInt(Get0(order, QuantityField)) == Ok(r[QuantityField])
  {
    NullableStringValues(order);
    BoolValues(order);
    ScalarsSteps(order);
  }

  lemma NullableStringValues(order: Dict)
    requires Scalars(order).Ok?
    ensures var r := Scalars(order).value;
      forall i :: 0 <= i < |NullableStringFields| ==> SafeStr(Get0(order, NullableStringFields[i])) == Ok(r[NullableStringFields[i]])
  {
    ScalarsSteps(order);
    FlagFieldsApart();
    var r := Scalars(order).value;
    var r1 := Fill(map[], order, StringFields, SafeStr).value;
    var r2 := Fill(r1, order, NullableStringFields, SafeStr).value;
    var r3 := Fill(r2, order, BoolFields, SafeBool).value;
    FillValues(r1, order, NullableStringFields, SafeStr);
    FillKeeps(r2, order, BoolFields, SafeBool, NullableStringFields);
    forall i | 0 <= i < |NullableStringFields|
      ensures SafeStr(Get0(order, NullableStringFields[i])) == Ok(r[NullableStringFields[i]])
    {
      var k := NullableStringFields[i];
      assert k != [QuantityField][0];
      assert r[k] == r3[k];
    }
  }

  lemma BoolValues(order: Dict)
    requires Scalars(order).Ok?
    ensures var r := Scalars(order).value;
      forall i :: 0 <= i < |BoolFields| ==> SafeBool(Get0(order, BoolFields[i])) == Ok(r[BoolFields[i]])
  {
    ScalarsSteps(order);
    FlagFieldsApart();
    var r := Scalars(order).value;
    var r1 := Fill(map[], order, StringFields, SafeStr).value;
    var r2 := Fill(r1, order, NullableStringFields, SafeStr).value;
    var r3 := Fill(r2, order, BoolFields, SafeBool).value;
    FillValues(r2, order, BoolFields, SafeBool);
    forall i | 0 <= i < |BoolFields|
      ensures SafeBool(Get0(order, BoolFields[i])) == Ok(r[BoolFields[i]])
    {
      var k := BoolFields[i];
      assert k != [QuantityField][0];
      assert r[k] == r3[k];
    }
  }

  /** The money groups hold their conversions, and the earlier keys keep their values. */
  lemma AmountValues(order: Dict)
    requires Amounts(order).Ok?
    ensures var r := Amounts(order).value; var scalars := Scalars(order).value;
      && (forall i :: 0 <= i < |MoneyFields| ==> Money(Get0(order, MoneyFields[i])) == Ok(r[MoneyFields[i]]))
      && (forall i :: 0 <= i < |NullableMoneyFields| ==> NullableMoney(Get0(order, NullableMoneyFields[i])) == Ok(r[NullableMoneyFields[i]]))
      && (forall k :: k in scalars && k !in MoneyFields && k !in NullableMoneyFields ==> r[k] == scalars[k])
  {
    MoneyValues(order);
    NullableMoneyValues(order);
    AmountsKeepScalars(order);
  }

  lemma MoneyValues(order: Dict)
    requires Amounts(order).Ok?
    ensures var r := Amounts(order).value;
      forall i :: 0 <= i < |MoneyFields| ==> Money(Get0(order, MoneyFields[i])) == Ok(r[MoneyFields[i]])
  {
    AmountFieldsApart();
    var scalars := Scalars(order).value;
    var r5 := Fill(scalars, order, MoneyFields, Money).value;
    assert Amounts(order).value == Fill(r5, order, NullableMoneyFields, NullableMoney).value;
    FillValues(scalars, order, MoneyFields, Money);
    FillKeeps(r5, order, NullableMoneyFields, NullableMoney, MoneyFields);
  }

  lemma NullableMoneyValues(order: Dict)
    requires Amounts(order).Ok?
    ensures var r := Amounts(order).value;
      forall i :: 0 <= i < |NullableMoneyFields| ==> NullableMoney(Get0(order, NullableMoneyFields[i])) == Ok(r[NullableMoneyFields[i]])
  {
    var scalars := Scalars(order).value;
    var r5 := Fill(scalars, order, MoneyFields, Money).value;
    assert Amounts(order).value == Fill(r5, order, NullableMoneyFields, NullableMoney).value;
    AmountFieldsApart();
    FillValues(r5, order, NullableMoneyFields, NullableMoney);
  }

  lemma AmountsKeepScalars(order: Dict)
    requires Amounts(order).Ok?
    ensures var r := Amounts(order).value; var scalars := Scalars(order).value;
      forall k :: k in scalars && k !in MoneyFields && k !in NullableMoneyFields ==> r[k] == scalars[k]
  {
    var scalars := Scalars(order).value;
    var r5 := Fill(scalars, order, MoneyFields, Money).value;
    assert Amounts(order).value == Fill(r5, order, NullableMoneyFields, NullableMoney).value;
  }

  /** The coerced dict, written out: the money stage's dict with the line items and the two arrays added. */
  lemma CoerceSteps(order: Dict)
    requires Coerce(order).Ok?
    ensures Amounts(order).Ok? && LineItemsOf(order).Ok?
    ensures SafeList(Get0(order, "paymentGatewayNames")).Ok? && SafeList(Get0(order, "tags")).Ok?
    ensures Coerce(order).value == Amounts(order).value["lineItems" := List(LineItemsOf(order).value)]
      ["paymentGatewayNames" := SafeList(Get0(order, "paymentGatewayNames")).value]["tags" := SafeList(Get0(order, "tags")).value]
  {
  }

  /** Whatever the earlier groups wrote is still there after the line items and the two arrays are added. */
  lemma CoerceKeepsAmounts(order: Dict)
    requires Coerce(order).Ok?
    ensures forall k :: k in Amounts(order).value && k !in ArrayFields ==> Coerce(order).value[k] == Amounts(order).value[k]
    ensures Coerce(order).value["lineItems"].List? && LineItemsOf(order) == Ok(Coerce(order).value["lineItems"].items)
  {
    CoerceSteps(order);
    var r := Coerce(order).value;
    var amounts := Amounts(order).value;
    forall k | k in amounts && k !in ArrayFields
      ensures r[k] == amounts[k]
    {
      assert k != ArrayFields[0] && k != ArrayFields[1] && k != ArrayFields[2];
    }
  }

  /**
    Each string key, plain or nullable, holds `safe_str(order_data.get(key))`,
    so an absent one is None (the plain ones included, not '').
   */
  lemma CoerceStrings(order: Dict)
    requires Coerce(order).Ok?
    ensures var r := Coerce(order).value;
      && (forall i :: 0 <= i < |StringFields| ==> SafeStr(Get0(order, StringFields[i])) == Ok(r[StringFields[i]]))
      && (forall i :: 0 <= i < |NullableStringFields| ==> SafeStr(Get0(order, NullableStringFields[i])) == Ok(r[NullableStringFields[i]]))
      && (forall i :: 0 <= i < |StringFields| && StringFields[i] !in order ==> r[StringFields[i]] == Null)
      && (forall i :: 0 <= i < |NullableStringFields| && NullableStringFields[i] !in order ==> r[NullableStringFields[i]] == Null)
  {
    StringValues(order);
    FlagValues(order);
    AmountValues(order);
    CoerceKeepsAmounts(order);
    StringsNotAmounts();
    var r := Coerce(order).value;
    forall i | 0 <= i < |StringFields|
      ensures SafeStr(Get0(order, StringFields[i])) == Ok(r[StringFields[i]])
    {
      var k := StringFields[i];
      assert k !in MoneyFields && k !in NullableMoneyFields && k !in ArrayFields;
    }
    forall i | 0 <= i < |NullableStringFields|
      ensures SafeStr(Get0(order, NullableStringFields[i])) == Ok(r[NullableStringFields[i]])
    {
      var k := NullableStringFields[i];
      assert k !in MoneyFields && k !in NullableMoneyFields && k !in ArrayFields;
    }
  }

  /** Each boolean key holds `safe_bool(order_data.get(key))`, so an absent one is False; an absent quantity is 0. */
  lemma CoerceBools(order: Dict)
    requires Coerce(order).Ok?
    ensures var r := Coerce(order).value;
      && (forall i :: 0 <= i < |BoolFields| ==> SafeBool(Get0(order, BoolFields[i])) == Ok(r[BoolFields[i]]))
      && (forall i :: 0 <= i < |BoolFields| && BoolFields[i] !in order ==> r[BoolFields[i]] == Bool(false))
      && SafeInt(Get0(order, QuantityField)) == Ok(r[QuantityField])
      && (QuantityField !in order ==> r[QuantityField] == Int(0))
  {
    FlagValues(order);
    AmountValues(order);
    CoerceKeepsAmounts(order);
    BoolsNotAmounts();
    var r := Coerce(order).value;
    forall i | 0 <= i < |BoolFields|
      ensures SafeBool(Get0(order, BoolFields[i])) == Ok(r[BoolFields[i]])
    {
      var k := BoolFields[i];
      assert k !in MoneyFields && k !in NullableMoneyFields && k !in ArrayFields;
    }
  }

  /** Each money key holds its amount, 0.0 when absent; the nullable ones are None when absent. */
  lemma CoerceMoney(order: Dict)
    requires Coerce(order).Ok?
    ensures var r := Coerce(order).value;
      && (forall i :: 0 <= i < |MoneyFields| ==> Money(Get0(order, MoneyFields[i])) == Ok(r[MoneyFields[i]]))
      && (forall i :: 0 <= i < |NullableMoneyFields| ==> NullableMoney(Get0(order, NullableMoneyFields[i])) == Ok(r[NullableMoneyFields[i]]))
      && (forall i :: 0 <= i < |MoneyFields| && MoneyFields[i] !in order ==> r[MoneyFields[i]] == Float(0.0))
      && (forall i :: 0 <= i < |NullableMoneyFields| && NullableMoneyFields[i] !in order ==> r[NullableMoneyFields[i]] == Null)
  {
    AmountValues(order);
    CoerceKeepsAmounts(order);
    MoneyNotArrays();
    var r := Coerce(order).value;
    forall i | 0 <= i < |MoneyFields|
      ensures Money(Get0(order, MoneyFields[i])) == Ok(r[MoneyFields[i]])
    {
      assert MoneyFields[i] !in ArrayFields;
    }
    forall i | 0 <= i < |NullableMoneyFields|
      ensures NullableMoney(Get0(order, NullableMoneyFields[i])) == Ok(r[NullableMoneyFields[i]])
    {
      assert NullableMoneyFields[i] !in ArrayFields;
    }
  }

  /** A coerced boolean is as truthy as the order's own value, so the row's 0/1 flag is unchanged by coercion. */
  lemma CoercedFlags(order: Dict)
    requires Coerce(order).Ok?
    ensures forall i :: 0 <= i < |BoolFields| ==>
      Flag(Get0(Coerce(order).value, BoolFields[i])) == Flag(Get0(order, BoolFields[i]))
  {
    CoerceBools(order);
  }

  // ---------------------------------------------------------------------------
  // transform_for_clickhouse

  /** A column of the Shopify orders table. */
  datatype Column =
    | Id
    | ConnectionId
    | Name
    | CreatedAt
    | UpdatedAt
    | CancelledAt
    | ProcessedAt
    | CancelReason
    | DisplayFinancialStatus
    | DisplayFulfillmentStatus
    | FullyPaid
    | Unpaid
    | Test
    | CurrencyCode
    | TaxesIncluded
    | TaxExempt
    | DutiesIncluded
    | DiscountCode
    | CurrentCartDiscountAmountSet
    | CurrentShippingPriceSet
    | CurrentSubtotalPriceSet
    | CurrentTotalDiscountsSet
    | CurrentTotalTaxSet
    | CurrentTotalPriceSet
    | NetPaymentSet
    | CurrentTotalDutiesSet
    | CurrentTotalAdditionalFeesSet
    | TotalDiscountsSet
    | TotalPriceSet
    | TotalReceivedSet
    | TotalRefundedSet
    | TotalShippingPriceSet
    | TotalTaxSet
    | TotalTipReceivedSet
    | CurrentSubtotalLineItemsQuantity
    | LineItems
    | PaymentGatewayNames
    | Tags
    | Note
    | Customer
    | Refunds
    | BatchedAt

  /** The column's name in the table; for every column but `connection_id` also the order key it is read from. */
  function ColumnName(c: Column): string {
    match c
    case Id => "id"
    case ConnectionId => "connection_id"
    case Name => "name"
    case CreatedAt => "createdAt"
    case UpdatedAt => "updatedAt"
    case CancelledAt => "cancelledAt"
    case ProcessedAt => "processedAt"
    case CancelReason => "cancelReason"
    case DisplayFinancialStatus => "displayFinancialStatus"
    case DisplayFulfillmentStatus => "displayFulfillmentStatus"
    case FullyPaid => "fullyPaid"
    case Unpaid => "unpaid"
    case Test => "test"
    case CurrencyCode => "currencyCode"
    case TaxesIncluded => "taxesIncluded"
    case TaxExempt => "taxExempt"
    case DutiesIncluded => "dutiesIncluded"
    case DiscountCode => "discountCode"
    case CurrentCartDiscountAmountSet => "currentCartDiscountAmountSet"
    case CurrentShippingPriceSet => "currentShippingPriceSet"
    case CurrentSubtotalPriceSet => "currentSubtotalPriceSet"
    case CurrentTotalDiscountsSet => "currentTotalDiscountsSet"
    case CurrentTotalTaxSet => "currentTotalTaxSet"
    case CurrentTotalPriceSet => "currentTotalPriceSet"
    case NetPaymentSet => "netPaymentSet"
    case CurrentTotalDutiesSet => "currentTotalDutiesSet"
    case CurrentTotalAdditionalFeesSet => "currentTotalAdditionalFeesSet"
    case TotalDiscountsSet => "totalDiscountsSet"
    case TotalPriceSet => "totalPriceSet"
    case TotalReceivedSet => "totalReceivedSet"
    case TotalRefundedSet => "totalRefundedSet"
    case TotalShippingPriceSet => "totalShippingPriceSet"
    case TotalTaxSet => "totalTaxSet"
    case TotalTipReceivedSet => "totalTipReceivedSet"
    case CurrentSubtotalLineItemsQuantity => "currentSubtotalLineItemsQuantity"
    case LineItems => "lineItems"
    case PaymentGatewayNames => "paymentGatewayNames"
    case Tags => "tags"
    case Note => "note"
    case Customer => "customer"
    case Refunds => "refunds"
    case BatchedAt => "batchedAt"
  }

  /** `column_names`: the table's column order. */
  const Columns: seq<Column> := seq(42, ColumnAt)

  /** The entry at position `i` of `column_names`. */
  function ColumnAt(i: int): Column
    requires 0 <= i < 42
  {
    match i
    case 0 => Id
    case 1 => ConnectionId
    case 2 => Name
    case 3 => CreatedAt
    case 4 => UpdatedAt
    case 5 => CancelledAt
    case 6 => ProcessedAt
    case 7 => CancelReason
    case 8 => DisplayFinancialStatus
    case 9 => DisplayFulfillmentStatus
    case 10 => FullyPaid
    case 11 => Unpaid
    case 12 => Test
    case 13 => CurrencyCode
    case 14 => TaxesIncluded
    case 15 => TaxExempt
    case 16 => DutiesIncluded
    case 17 => DiscountCode
    case 18 => CurrentCartDiscountAmountSet
    case 19 => CurrentShippingPriceSet
    case 20 => CurrentSubtotalPriceSet
    case 21 => CurrentTotalDiscountsSet
    case 22 => CurrentTotalTaxSet
    case 23 => CurrentTotalPriceSet
    case 24 => NetPaymentSet
    case 25 => CurrentTotalDutiesSet
    case 26 => CurrentTotalAdditionalFeesSet
    case 27 => TotalDiscountsSet
    case 28 => TotalPriceSet
    case 29 => TotalReceivedSet
    case 30 => TotalRefundedSet
    case 31 => TotalShippingPriceSet
    case 32 => TotalTaxSet
    case 33 => TotalTipReceivedSet
    case 34 => CurrentSubtotalLineItemsQuantity
    case 35 => LineItems
    case 36 => PaymentGatewayNames
    case 37 => Tags
    case 38 => Note
    case 39 => Customer
    case 40 => Refunds
    case 41 => BatchedAt
  }

  /** Position of a column in `Columns`. */
  function Position(c: Column): nat {
    match c
    case Id => 0
    case ConnectionId => 1
    case Name => 2
    case CreatedAt => 3
    case UpdatedAt => 4
    case CancelledAt => 5
    case ProcessedAt => 6
    case CancelReason => 7
    case DisplayFinancialStatus => 8
    case DisplayFulfillmentStatus => 9
    case FullyPaid => 10
    case Unpaid => 11
    case Test => 12
    case CurrencyCode => 13
    case TaxesIncluded => 14
    case TaxExempt => 15
    case DutiesIncluded => 16
    case DiscountCode => 17
    case CurrentCartDiscountAmountSet => 18
    case CurrentShippingPriceSet => 19
    case CurrentSubtotalPriceSet => 20
    case CurrentTotalDiscountsSet => 21
    case CurrentTotalTaxSet => 22
    case CurrentTotalPriceSet => 23
    case NetPaymentSet => 24
    case CurrentTotalDutiesSet => 25
    case CurrentTotalAdditionalFeesSet => 26
    case TotalDiscountsSet => 27
    case TotalPriceSet => 28
    case TotalReceivedSet => 29
    case TotalRefundedSet => 30
    case TotalShippingPriceSet => 31
    case TotalTaxSet => 32
    case TotalTipReceivedSet => 33
    case CurrentSubtotalLineItemsQuantity => 34
    case LineItems => 35
    case PaymentGatewayNames => 36
    case Tags => 37
    case Note => 38
    case Customer => 39
    case Refunds => 40
    case BatchedAt => 41
  }

  /** The sixteen money columns, `currentCartDiscountAmountSet` to `totalTipReceivedSet`, in column order. */
  const MoneyColumns: seq<Column> := seq(16, k requires 0 <= k < 16 => ColumnAt(18 + k))

  /** The `row` dict of one order: one entry per column. */
  datatype Row = Row(
    id: Cell,
    connectionId: Cell,
    name: Cell,
    createdAt: Cell,
    updatedAt: Cell,
    cancelledAt: Cell,
    processedAt: Cell,
    cancelReason: Cell,
    displayFinancialStatus: Cell,
    displayFulfillmentStatus: Cell,
    fullyPaid: Cell,
    unpaid: Cell,
    test: Cell,
    currencyCode: Cell,
    taxesIncluded: Cell,
    taxExempt: Cell,
    dutiesIncluded: Cell,
    discountCode: Cell,
    currentCartDiscountAmountSet: Cell,
    currentShippingPriceSet: Cell,
    currentSubtotalPriceSet: Cell,
    currentTotalDiscountsSet: Cell,
    currentTotalTaxSet: Cell,
    currentTotalPriceSet: Cell,
    netPaymentSet: Cell,
    currentTotalDutiesSet: Cell,
    currentTotalAdditionalFeesSet: Cell,
    totalDiscountsSet: Cell,
    totalPriceSet: Cell,
    totalReceivedSet: Cell,
    totalRefundedSet: Cell,
    totalShippingPriceSet: Cell,
    totalTaxSet: Cell,
    totalTipReceivedSet: Cell,
    currentSubtotalLineItemsQuantity: Cell,
    lineItems: Cell,
    paymentGatewayNames: Cell,
    tags: Cell,
    note: Cell,
    customer: Cell,
    refunds: Cell,
    batchedAt: Cell
  )

  /** `row[col]`. */
  function Lookup(row: Row, c: Column): Cell {
    match c
    case Id => row.id
    case ConnectionId => row.connectionId
    case Name => row.name
    case CreatedAt => row.createdAt
    case UpdatedAt => row.updatedAt
    case CancelledAt => row.cancelledAt
    case ProcessedAt => row.processedAt
    case CancelReason => row.cancelReason
    case DisplayFinancialStatus => row.displayFinancialStatus
    case DisplayFulfillmentStatus => row.displayFulfillmentStatus
    case FullyPaid => row.fullyPaid
    case Unpaid => row.unpaid
    case Test => row.test
    case CurrencyCode => row.currencyCode
    case TaxesIncluded => row.taxesIncluded
    case TaxExempt => row.taxExempt
    case DutiesIncluded => row.dutiesIncluded
    case DiscountCode => row.discountCode
    case CurrentCartDiscountAmountSet => row.currentCartDiscountAmountSet
    case CurrentShippingPriceSet => row.currentShippingPriceSet
    case CurrentSubtotalPriceSet => row.currentSubtotalPriceSet
    case CurrentTotalDiscountsSet => row.currentTotalDiscountsSet
    case CurrentTotalTaxSet => row.currentTotalTaxSet
    case CurrentTotalPriceSet => row.currentTotalPriceSet
    case NetPaymentSet => row.netPaymentSet
    case CurrentTotalDutiesSet => row.currentTotalDutiesSet
    case CurrentTotalAdditionalFeesSet => row.currentTotalAdditionalFeesSet
    case TotalDiscountsSet => row.totalDiscountsSet
    case TotalPriceSet => row.totalPriceSet
    case TotalReceivedSet => row.totalReceivedSet
    case TotalRefundedSet => row.totalRefundedSet
    case TotalShippingPriceSet => row.totalShippingPriceSet
    case TotalTaxSet => row.totalTaxSet
    case TotalTipReceivedSet => row.totalTipReceivedSet
    case CurrentSubtotalLineItemsQuantity => row.currentSubtotalLineItemsQuantity
    case LineItems => row.lineItems
    case PaymentGatewayNames => row.paymentGatewayNames
    case Tags => row.tags
    case Note => row.note
    case Customer => row.customer
    case Refunds => row.refunds
    case BatchedAt => row.batchedAt
  }

  /** `column_names` has 42 entries and none twice. */
  lemma ColumnsDistinct()
    ensures |Columns| == 42 && Distinct(Columns)
  {
    forall i | 0 <= i < |Columns|
      ensures Position(Columns[i]) == i
    {
      if i < 21 {
        LowPositions(i);
      } else {
        HighPositions(i);
      }
    }
  }

  /** `ColumnAt` and `Position` are inverse on the first half of the columns. */
  lemma LowPositions(i: int)
    requires 0 <= i < 21
    ensures Position(ColumnAt(i)) == i
  {
  }

  /** `ColumnAt` and `Position` are inverse on the second half of the columns. */
  lemma HighPositions(i: int)
    requires 21 <= i < 42
    ensures Position(ColumnAt(i)) == i
  {
  }

  /** `1 if order.get(key) else 0`. */
  function Flag(v: Value): Cell {
    IntCell(if Truthy(v) then 1 else 0)
  }

  /**
    A money column: `Decimal(str(order.get(col, 0)))`, which raises
    InvalidOperation for anything but a number or a decimal literal; the
    two nullable ones are None whenever `order.get(col)` is None.
   */
  function MoneyCell(order: Dict, c: Column): Result<Cell> {
    if (c == CurrentTotalDutiesSet || c == CurrentTotalAdditionalFeesSet) && Get0(order, ColumnName(c)).Null? then
      Ok(NullCell)
    else
      var d :- ToDecimal(Get(order, ColumnName(c), Int(0)));
      Ok(DecimalCell(d))
  }

  /** What every row of one run shares: the connection id and the batch stamp's ISO text. */
  datatype Stamp = Stamp(connectionId: string, batchedAt: string)

  /** The entries of the `row` literal that can raise, in the order the literal evaluates them. */
  datatype Conversions = Conversions(
    createdAt: Option<DateTime>, updatedAt: Option<DateTime>, cancelledAt: Option<DateTime>, processedAt: Option<DateTime>,
    money: seq<Cell>, quantity: int, batched: Option<DateTime>)

  /**
    The raising part of the `row` literal: the four timestamps, the sixteen
    money columns, `int()` of the quantity and the batch stamp, the first
    exception escaping.
   */
  function Convert(stamp: Stamp, order: Dict): (r: Result<Conversions>)
    ensures r.Ok? ==> |r.value.money| == 16
  {
    var t :- OrderTimes(order);
    var money :- MapResult(order, MoneyColumns, MoneyCell);
    var quantity :- ToInt(Get(order, QuantityField, Int(0)));
    var batched :- ParseDatetime(Str(stamp.batchedAt), true);
    Ok(Conversions(t.createdAt, t.updatedAt, t.cancelledAt, t.processedAt, money, quantity, batched))
  }

  /** The four order timestamps of the `row` literal, parsed in its order. */
  datatype Times = Times(createdAt: Option<DateTime>, updatedAt: Option<DateTime>, cancelledAt: Option<DateTime>, processedAt: Option<DateTime>)

  function OrderTimes(order: Dict): Result<Times> {
    var createdAt :- ParseDatetime(Get0(order, "createdAt"), true);
    var updatedAt :- ParseDatetime(Get0(order, "updatedAt"), true);
    var cancelledAt :- ParseDatetime(Get0(order, "cancelledAt"), true);
    var processedAt :- ParseDatetime(Get0(order, "processedAt"), true);
    Ok(Times(createdAt, updatedAt, cancelledAt, processedAt))
  }

  /** The `row` dict of one order, given the values of its raising entries. */
  function RowOf(stamp: Stamp, order: Dict, v: Conversions): Row
    requires |v.money| == 16
  {
    Row(
      id := RawOf(Get(order, "id", Str(""))),
      connectionId := TextCell(stamp.connectionId),
      name := RawOf(Get(order, "name", Str(""))),
      createdAt := TimeOrNull(v.createdAt),
      updatedAt := TimeOrNull(v.updatedAt),
      cancelledAt := TimeOrNull(v.cancelledAt),
      processedAt := TimeOrNull(v.processedAt),
      cancelReason := RawOf(Get0(order, "cancelReason")),
      displayFinancialStatus := RawOf(Get(order, "displayFinancialStatus", Str(""))),
      displayFulfillmentStatus := RawOf(Get(order, "displayFulfillmentStatus", Str(""))),
      fullyPaid := Flag(Get0(order, "fullyPaid")),
      unpaid := Flag(Get0(order, "unpaid")),
      test := Flag(Get0(order, "test")),
      currencyCode := RawOf(Get(order, "currencyCode", Str(""))),
      taxesIncluded := Flag(Get0(order, "taxesIncluded")),
      taxExempt := Flag(Get0(order, "taxExempt")),
      dutiesIncluded := Flag(Get0(order, "dutiesIncluded")),
      discountCode := RawOf(Get0(order, "discountCode")),
      currentCartDiscountAmountSet := v.money[0],
      currentShippingPriceSet := v.money[1],
      currentSubtotalPriceSet := v.money[2],
      currentTotalDiscountsSet := v.money[3],
      currentTotalTaxSet := v.money[4],
      currentTotalPriceSet := v.money[5],
      netPaymentSet := v.money[6],
      currentTotalDutiesSet := v.money[7],
      currentTotalAdditionalFeesSet := v.money[8],
      totalDiscountsSet := v.money[9],
      totalPriceSet := v.money[10],
      totalReceivedSet := v.money[11],
      totalRefundedSet := v.money[12],
      totalShippingPriceSet := v.money[13],
      totalTaxSet := v.money[14],
      totalTipReceivedSet := v.money[15],
      currentSubtotalLineItemsQuantity := IntCell(v.quantity),
      lineItems := JsonCell(Get(order, "lineItems", List([]))),
      paymentGatewayNames := RawOf(Get(order, "paymentGatewayNames", List([]))),
      tags := RawOf(Get(order, "tags", List([]))),
      note := RawOf(Get0(order, "note")),
      customer := EmptyArrayJson,
      refunds := EmptyArrayJson,
      batchedAt := TimeOrNull(v.batched)
    )
  }

  /** The `row` dict built for one order. */
  function PrepareRow(stamp: Stamp, order: Dict): (r: Result<Row>)
    ensures r.Ok? ==> r.value.connectionId == TextCell(stamp.connectionId)
    ensures r.Ok? ==> (ParseDatetime(Str(stamp.batchedAt), true).Ok?
      && r.value.batchedAt == TimeOrNull(ParseDatetime(Str(stamp.batchedAt), true).value))
  {
    var v :- Convert(stamp, order);
    Ok(RowOf(stamp, order, v))
  }

  /** An order with none of the keys gets every documented default and the parsed batch stamp. */
  lemma EmptyOrderDefaults(connectionId: string, now: DateTime)
    requires Valid(now)
    ensures PrepareRow(Stamp(connectionId, IsoFormat(now)), map[]) == Ok(EmptyOrderRowOf(connectionId, now))
  {
    ParseDatetimeIsoFormat(now);
    EmptyOrderRow(Stamp(connectionId, IsoFormat(now)), now);
  }

  /**
    The row of an order with none of the keys: '' for the identifiers and
    statuses, None for the timestamps, the cancel reason, the discount code,
    the note and the two nullable money columns, 0 for the flags and the
    quantity, Decimal 0 for the other money columns and [] for the arrays.
   */
  function EmptyOrderRowOf(connectionId: string, batched: DateTime): Row {
    Row(
      TextCell(""), TextCell(connectionId), TextCell(""), NullCell, NullCell, NullCell, NullCell,
      NullCell, TextCell(""), TextCell(""), IntCell(0), IntCell(0), IntCell(0), TextCell(""),
      IntCell(0), IntCell(0), IntCell(0), NullCell,
      DecimalCell(0.0), DecimalCell(0.0), DecimalCell(0.0), DecimalCell(0.0), DecimalCell(0.0), DecimalCell(0.0),
      DecimalCell(0.0), NullCell, NullCell,
      DecimalCell(0.0), DecimalCell(0.0), DecimalCell(0.0), DecimalCell(0.0), DecimalCell(0.0), DecimalCell(0.0),
      DecimalCell(0.0),
      IntCell(0), JsonCell(List([])), RawCell(List([])), RawCell(List([])), NullCell,
      EmptyArrayJson, EmptyArrayJson, TimeCell(batched))
  }

  /** The row of an empty order, for any stamp text that parses. */
  lemma EmptyOrderRow(stamp: Stamp, batched: DateTime)
    requires ParseDatetime(Str(stamp.batchedAt), true) == Ok(Some(batched))
    ensures PrepareRow(stamp, map[]) == Ok(EmptyOrderRowOf(stamp.connectionId, batched))
  {
    EmptyMoneyColumns();
    var money := MapResult(map[], MoneyColumns, MoneyCell).value;
    assert ParseDatetime(Null, true) == Ok(None);
    assert ToInt(Int(0)) == Ok(0);
    var v := Conversions(None, None, None, None, money, 0, Some(batched));
    assert Convert(stamp, map[]) == Ok(v);
    EmptyRowOf(stamp, v);
  }

  /** The entries of an empty order's row, given the values of its raising entries. */
  lemma EmptyRowOf(stamp: Stamp, v: Conversions)
    requires |v.money| == 16 && v.money[7] == NullCell && v.money[8] == NullCell
    requires forall k :: 0 <= k < 16 && k != 7 && k != 8 ==> v.money[k] == DecimalCell(0.0)
    requires v.createdAt.None? && v.updatedAt.None? && v.cancelledAt.None? && v.processedAt.None?
    requires v.quantity == 0 && v.batched.Some?
    ensures RowOf(stamp, map[], v) == EmptyOrderRowOf(stamp.connectionId, v.batched.value)
  {
  }

  /** Every money cell of an empty order succeeds, and only the two nullable columns are None. */
  lemma EmptyMoneyColumns()
    ensures MapResult(map[], MoneyColumns, MoneyCell).Ok?
    ensures var money := MapResult(map[], MoneyColumns, MoneyCell).value;
      money[7] == NullCell && money[8] == NullCell
      && forall k :: 0 <= k < 16 && k != 7 && k != 8 ==> money[k] == DecimalCell(0.0)
  {
    var empty: Dict := map[];
    EmptyMoneyCells();
    forall k | 0 <= k < 16
      ensures MoneyCell(empty, MoneyColumns[k]) == Ok(if k == 7 || k == 8 then NullCell else DecimalCell(0.0))
    {
      MoneyColumnPosition(k);
    }
    MapResultFails(empty, MoneyColumns, MoneyCell);
    MapResultElements(empty, MoneyColumns, MoneyCell);
  }

  /** The money column at index `k` sits at position 18 + `k` of the row. */
  lemma MoneyColumnPosition(k: int)
    requires 0 <= k < 16
    ensures MoneyColumns[k] == ColumnAt(18 + k) && Position(MoneyColumns[k]) == 18 + k
  {
    if 18 + k < 21 {
      LowPositions(18 + k);
    } else {
      HighPositions(18 + k);
    }
  }

  /** With no money keys, every money column is Decimal 0 except the two nullable ones, which are None. */
  lemma EmptyMoneyCells()
    ensures forall c :: (MoneyCell(map[], c) ==
      Ok(if c == CurrentTotalDutiesSet || c == CurrentTotalAdditionalFeesSet then NullCell else DecimalCell(0.0)))
  {
  }

  /** With the stamp `isoformat()` wrote, a row fails exactly when one of the order's own conversions raises. */
  lemma PrepareRowFails(connectionId: string, now: DateTime, order: Dict)
    requires Valid(now)
    ensures PrepareRow(Stamp(connectionId, IsoFormat(now)), order).Err? <==> (
      || ParseDatetime(Get0(order, "createdAt"), true).Err? || ParseDatetime(Get0(order, "updatedAt"), true).Err?
      || ParseDatetime(Get0(order, "cancelledAt"), true).Err? || ParseDatetime(Get0(order, "processedAt"), true).Err?
      || (exists k :: 0 <= k < |MoneyColumns| && MoneyCell(order, MoneyColumns[k]).Err?)
      || ToInt(Get(order, QuantityField, Int(0))).Err?)
  {
    ParseDatetimeIsoFormat(now);
    MapResultFails(order, MoneyColumns, MoneyCell);
  }

  /**
    The two nullable money columns are None exactly when the order holds
    None (or nothing) there; otherwise they are the decimal of the value.
   */
  lemma NullableMoneyCells(stamp: Stamp, order: Dict)
    requires PrepareRow(stamp, order).Ok?
    ensures var row := PrepareRow(stamp, order).value;
      && (Get0(order, "currentTotalDutiesSet").Null? <==> row.currentTotalDutiesSet == NullCell)
      && (Get0(order, "currentTotalAdditionalFeesSet").Null? <==> row.currentTotalAdditionalFeesSet == NullCell)
  {
    RowParts(stamp, order);
    var money := MapResult(order, MoneyColumns, MoneyCell).value;
    MapResultElements(order, MoneyColumns, MoneyCell);
    MoneyColumnPosition(7);
    MoneyColumnPosition(8);
    assert MoneyCell(order, CurrentTotalDutiesSet) == Ok(money[7]);
    assert MoneyCell(order, CurrentTotalAdditionalFeesSet) == Ok(money[8]);
  }

  /** A built row holds the money cells of the money loop, at their column positions. */
  lemma RowParts(stamp: Stamp, order: Dict)
    requires PrepareRow(stamp, order).Ok?
    ensures MapResult(order, MoneyColumns, MoneyCell).Ok?
    ensures var money := MapResult(order, MoneyColumns, MoneyCell).value; var row := PrepareRow(stamp, order).value;
      row.currentTotalDutiesSet == money[7] && row.currentTotalAdditionalFeesSet == money[8]
  {
    ConvertMoney(stamp, order);
    var v := Convert(stamp, order).value;
    assert PrepareRow(stamp, order).value == RowOf(stamp, order, v);
  }

  /** The money entries of the conversions are the results of the money loop. */
  lemma ConvertMoney(stamp: Stamp, order: Dict)
    requires Convert(stamp, order).Ok?
    ensures MapResult(order, MoneyColumns, MoneyCell) == Ok(Convert(stamp, order).value.money)
  {
  }

  /** A nullable money field absent from the order is None after coercion and stays None in the row. */
  lemma AbsentNullableMoneyStaysNone(stamp: Stamp, order: Dict)
    requires Coerce(order).Ok? && PrepareRow(stamp, Coerce(order).value).Ok?
    ensures "currentTotalDutiesSet" !in order ==> PrepareRow(stamp, Coerce(order).value).value.currentTotalDutiesSet == NullCell
    ensures "currentTotalAdditionalFeesSet" !in order ==>
      PrepareRow(stamp, Coerce(order).value).value.currentTotalAdditionalFeesSet == NullCell
  {
    CoerceMoney(order);
    NullableMoneyCells(stamp, Coerce(order).value);
    assert NullableMoneyFields[0] == "currentTotalAdditionalFeesSet" && NullableMoneyFields[1] == "currentTotalDutiesSet";
  }

  /** The 0/1 flags of a row are 1 exactly for the truthy boolean keys of the order. */
  lemma FlagCells(stamp: Stamp, order: Dict)
    requires PrepareRow(stamp, order).Ok?
    ensures var row := PrepareRow(stamp, order).value;
      && (row.fullyPaid == IntCell(1) <==> Truthy(Get0(order, "fullyPaid")))
      && (row.unpaid == IntCell(1) <==> Truthy(Get0(order, "unpaid")))
      && (row.test == IntCell(1) <==> Truthy(Get0(order, "test")))
      && (row.taxesIncluded == IntCell(1) <==> Truthy(Get0(order, "taxesIncluded")))
      && (row.taxExempt == IntCell(1) <==> Truthy(Get0(order, "taxExempt")))
      && (row.dutiesIncluded == IntCell(1) <==> Truthy(Get0(order, "dutiesIncluded")))
  {
  }

  /** What `transform_for_clickhouse` returns when the clock reads `now`. */
  function Transform(orders: seq<Dict>, connectionId: string, now: DateTime): Result<Batch>
    requires Valid(now)
  {
    var rows :- MapResult(Stamp(connectionId, IsoFormat(now)), orders, PrepareRow);
    Ok(Batch(OrderRows(rows, Columns, Lookup), Names(Columns, ColumnName), IsoFormat(now)))
  }

  /**
    `transform_for_clickhouse`: the batch stamp is the ISO text of one clock
    reading `now` (in UTC), every row parses it back, and the rows are then
    read out in column order.
   */
  method TransformForClickhouse(orders: seq<Dict>, connectionId: string, now: DateTime)
    returns (r: Result<Batch>)
    requires Valid(now)
    ensures r == Transform(orders, connectionId, now)
  {
    var batchedAt := IsoFormat(now);
    var prepared :- PrepareData(Stamp(connectionId, batchedAt), orders, PrepareRow);
    var ordered := OrderData(prepared, Columns, Lookup);
    TransformOk(orders, connectionId, now, prepared);
    r := Ok(Batch(ordered, Names(Columns, ColumnName), batchedAt));
  }

  /** When every row is built, the batch is those rows read out in column order. */
  lemma TransformOk(orders: seq<Dict>, connectionId: string, now: DateTime, rows: seq<Row>)
    requires Valid(now) && MapResult(Stamp(connectionId, IsoFormat(now)), orders, PrepareRow) == Ok(rows)
    ensures Transform(orders, connectionId, now) == Ok(Batch(OrderRows(rows, Columns, Lookup), Names(Columns, ColumnName), IsoFormat(now)))
  {
  }

  /** A row read out in column order has 42 entries: `connection_id` second, `customer` and `refunds` the empty JSON array, `batchedAt` last. */
  lemma OrderedRowShape(row: Row)
    ensures var cells := OrderRow(row, Columns, Lookup);
      && |cells| == 42 && cells[1] == row.connectionId && cells[41] == row.batchedAt
      && cells[39] == row.customer && cells[40] == row.refunds
  {
  }

  /** One row per order in input order, each the order's row read out in column order; the third result is the stamp's ISO text. */
  lemma TransformShape(orders: seq<Dict>, connectionId: string, now: DateTime)
    requires Valid(now) && Transform(orders, connectionId, now).Ok?
    ensures var b := Transform(orders, connectionId, now).value;
      && b.batchedAt == IsoFormat(now)
      && b.columns == Names(Columns, ColumnName)
      && |b.rows| == |orders|
      && forall k :: 0 <= k < |orders| ==>
           && PrepareRow(Stamp(connectionId, IsoFormat(now)), orders[k]).Ok?
           && b.rows[k] == OrderRow(PrepareRow(Stamp(connectionId, IsoFormat(now)), orders[k]).value, Columns, Lookup)
  {
    MapResultElements(Stamp(connectionId, IsoFormat(now)), orders, PrepareRow);
  }

  /** Every output row has 42 entries and carries the connection id, two empty JSON arrays and the one clock reading. */
  lemma TransformStamps(orders: seq<Dict>, connectionId: string, now: DateTime)
    requires Valid(now) && Transform(orders, connectionId, now).Ok?
    ensures var b := Transform(orders, connectionId, now).value;
      forall k :: 0 <= k < |b.rows| ==>
        && |b.rows[k]| == 42 && b.rows[k][1] == TextCell(connectionId) && b.rows[k][41] == TimeCell(now)
        && b.rows[k][39] == EmptyArrayJson && b.rows[k][40] == EmptyArrayJson
  {
    TransformShape(orders, connectionId, now);
    var b := Transform(orders, connectionId, now).value;
    forall k | 0 <= k < |b.rows|
      ensures && |b.rows[k]| == 42 && b.rows[k][1] == TextCell(connectionId) && b.rows[k][41] == TimeCell(now)
              && b.rows[k][39] == EmptyArrayJson && b.rows[k][40] == EmptyArrayJson
    {
      var row := PrepareRow(Stamp(connectionId, IsoFormat(now)), orders[k]).value;
      OrderedRowShape(row);
      BatchedAtCell(connectionId, now, orders[k]);
    }
  }

  /** A successful row's `batchedAt` is the clock reading itself. */
  lemma BatchedAtCell(connectionId: string, now: DateTime, order: Dict)
    requires Valid(now) && PrepareRow(Stamp(connectionId, IsoFormat(now)), order).Ok?
    ensures PrepareRow(Stamp(connectionId, IsoFormat(now)), order).value.batchedAt == TimeCell(now)
  {
    ParseDatetimeIsoFormat(now);
  }

}
