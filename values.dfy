/**
  JSON values as the pipeline receives them from `response.json()`, the
  Python operations the transformers apply to them (truthiness, `dict.get`,
  `int()`, `float()`, `Decimal(str(...))`, `str()`), and the cells of a
  flat row handed to the column store.
 */
module Values {
  import opened Wrappers
  import opened Literals
  import opened DateTimes

  /**
    A decoded JSON value. Objects are maps: the key order of the text is
    not kept. `Shown(v)` is the text `str(v)` of a non-string `v`, which only
    the Shopify coercion produces; its characters are not modelled.
   */
  datatype Value =
    | Null
    | Bool(b: bool)
    | Int(i: int)
    | Float(r: real)
    | Str(s: string)
    | List(items: seq<Value>)
    | Object(fields: map<string, Value>)
    | Shown(of: Value)

  /** A JSON object, such as one order. */
  type Dict = map<string, Value>

  /** Python truthiness: None, False, zero and empty containers are false. */
  predicate Truthy(v: Value) {
    match v
    case Null => false
    case Bool(b) => b
    case Int(i) => i != 0
    case Float(r) => r != 0.0
    case Str(s) => |s| > 0
    case List(items) => |items| > 0
    case Object(fields) => |fields| > 0
    case Shown(_) => true
  }

  /** `d.get(key, default)`: the default only when the key is absent, not when it maps to null. */
  function Get(d: Dict, key: string, default: Value): Value {
    if key in d then d[key] else default
  }

  /** `d.get(key)`. */
  function Get0(d: Dict, key: string): Value {
    Get(d, key, Null)
  }

  /** `v.get(key, default)` on a value that may not be a dict: only a dict has `.get`. */
  function GetIn(v: Value, key: string, default: Value): Result<Value> {
    match v
    case Object(f) => Ok(Get(f, key, default))
    case _ => Err(AttributeError)
  }

  /** Truncation toward zero, as `int()` of a float does. */
  function Truncate(r: real): int {
    if r >= 0.0 then r.Floor else -((-r).Floor)
  }

  /** `int(v)`. */
  function ToInt(v: Value): Result<int> {
    match v
    case Bool(b) => Ok(if b then 1 else 0)
    case Int(i) => Ok(i)
    case Float(r) => Ok(Truncate(r))
    case Str(s) => if ParseInt(s).Some? then Ok(ParseInt(s).value) else Err(ValueError)
    case _ => Err(TypeError)
  }

  /** `float(v)`. */
  function ToFloat(v: Value): Result<real> {
    match v
    case Bool(b) => Ok(if b then 1.0 else 0.0)
    case Int(i) => Ok(i as real)
    case Float(r) => Ok(r)
    case Str(s) => if ParseDecimal(s).Some? then Ok(ParseDecimal(s).value) else Err(ValueError)
    case _ => Err(TypeError)
  }

  /** `Decimal(str(v))`: `str()` of None, a bool, a list or a dict is no decimal literal. */
  function ToDecimal(v: Value): Result<real> {
    match v
    case Int(i) => Ok(i as real)
    case Float(r) => Ok(r)
    case Str(s) => if ParseDecimal(s).Some? then Ok(ParseDecimal(s).value) else Err(InvalidOperation)
    case _ => Err(InvalidOperation)
  }

  /**
    The `with_microseconds` branch of the Amazon and Shopify
    `parse_datetime`: `datetime.fromisoformat` after every 'Z' became
    '+00:00', on a truthy value. Nothing is caught here: text that
    `fromisoformat` rejects raises ValueError; the `'Z' in` test also runs
    on lists and dicts, and when it finds a 'Z' element or key the
    `.replace` raises AttributeError, while None, a bool or a number raises
    TypeError. A `Shown` value is already text (`str(v)` of a non-string),
    which never has the ISO shape, so `fromisoformat` raises ValueError.
   */
  function FromIsoText(v: Value): Result<DateTime> {
    match v
    case Str(s) =>
      (match FromIsoFormat(ReplaceZ(s))
       case Some(dt) => Ok(dt)
       case None => Err(ValueError))
    case List(items) => if Str("Z") in items then Err(AttributeError) else Err(TypeError)
    case Object(f) => if "Z" in f then Err(AttributeError) else Err(TypeError)
    case Shown(_) => Err(ValueError)
    case _ => Err(TypeError)
  }

  /** One entry of an output row, typed as the column store receives it. */
  datatype Cell =
    | NullCell                 // None
    | IntCell(n: int)
    | TextCell(text: string)
    | ShownCell(shown: Value)  // str(v) of a non-string value; its characters are not modelled
    | DecimalCell(d: real)
    | TimeCell(t: DateTime)
    | JsonCell(dumped: Value)  // the text json.dumps(v)
    | RawCell(raw: Value)      // the value itself, passed through

  /** `str(v)`. */
  function PyStr(v: Value): Cell {
    if v.Str? then TextCell(v.s) else ShownCell(v)
  }

  /** A value passed through unchanged: None stays None, a string stays that string. */
  function RawOf(v: Value): Cell {
    match v
    case Null => NullCell
    case Str(s) => TextCell(s)
    case _ => RawCell(v)
  }

  /** A parsed timestamp or None, as a cell. */
  function TimeOrNull(t: Option<DateTime>): Cell {
    match t
    case Some(dt) => TimeCell(dt)
    case None => NullCell
  }

  /** The text `json.dumps({})`, the transformers' default for a nested object. */
  const EmptyObjectJson: Cell := JsonCell(Object(map[]))
  /** The text `json.dumps([])`, the transformers' default for a nested array. */
  const EmptyArrayJson: Cell := JsonCell(List([]))

  /** `[row[col] for col in column_names]`, reading each entry with `lookup`. */
  function OrderRow<R, K>(row: R, columns: seq<K>, lookup: (R, K) -> Cell): (r: seq<Cell>)
    ensures |r| == |columns|
    ensures forall i :: 0 <= i < |columns| ==> r[i] == lookup(row, columns[i])
  {
    seq(|columns|, i requires 0 <= i < |columns| => lookup(row, columns[i]))
  }

  /** `[[row[col] for col in column_names] for row in rows]`. */
  function OrderRows<R, K>(rows: seq<R>, columns: seq<K>, lookup: (R, K) -> Cell): (r: seq<seq<Cell>>)
    ensures |r| == |rows|
    ensures forall k :: 0 <= k < |rows| ==> r[k] == OrderRow(rows[k], columns, lookup)
  {
    seq(|rows|, k requires 0 <= k < |rows| => OrderRow(rows[k], columns, lookup))
  }

  /** The column names of `columns`, spelled by `name`. */
  function Names<K>(columns: seq<K>, name: K -> string): (r: seq<string>)
    ensures |r| == |columns|
    ensures forall i :: 0 <= i < |columns| ==> r[i] == name(columns[i])
  {
    seq(|columns|, i requires 0 <= i < |columns| => name(columns[i]))
  }

  /** No column appears twice. */
  predicate Distinct<K(==)>(columns: seq<K>) {
    forall i, j :: 0 <= i < j < |columns| ==> columns[i] != columns[j]
  }

  /**
    A loop that appends `f(ctx, x)` for each `x` of `xs` in order and lets
    the first exception escape: the successful results in input order, or
    that exception.
   */
  function MapResult<C, T, R>(ctx: C, xs: seq<T>, f: (C, T) -> Result<R>): (r: Result<seq<R>>)
    ensures r.Ok? ==> |r.value| == |xs|
  {
    if xs == [] then Ok([])
    else
      var init :- MapResult(ctx, xs[..|xs| - 1], f);
      var y :- f(ctx, xs[|xs| - 1]);
      Ok(init + [y])
  }

  /** The loop after one more element: append its result, or stop with its exception. */
  lemma MapResultStep<C, T, R>(ctx: C, xs: seq<T>, n: nat, f: (C, T) -> Result<R>)
    requires n < |xs| && MapResult(ctx, xs[..n], f).Ok?
    ensures f(ctx, xs[n]).Ok? ==> MapResult(ctx, xs[..n + 1], f) == Ok(MapResult(ctx, xs[..n], f).value + [f(ctx, xs[n]).value])
    ensures f(ctx, xs[n]).Err? ==> MapResult(ctx, xs, f) == Err(f(ctx, xs[n]).error)
  {
    assert xs[..n + 1][..n] == xs[..n];
    if f(ctx, xs[n]).Err? {
      MapResultFailurePersists(ctx, xs, n + 1, f);
    }
  }

  /** Once a prefix raises, the whole loop raises the same exception. */
  lemma {:induction false} MapResultFailurePersists<C, T, R>(ctx: C, xs: seq<T>, n: nat, f: (C, T) -> Result<R>)
    requires n <= |xs| && MapResult(ctx, xs[..n], f).Err?
    ensures MapResult(ctx, xs, f) == MapResult(ctx, xs[..n], f)
    decreases |xs|
  {
    if n < |xs| {
      var init := xs[..|xs| - 1];
      assert init[..n] == xs[..n];
      MapResultFailurePersists(ctx, init, n, f);
    } else {
      assert xs[..n] == xs;
    }
  }

  /** Each result of a successful loop is the result for the element at the same position. */
  lemma {:induction false} MapResultElements<C, T, R>(ctx: C, xs: seq<T>, f: (C, T) -> Result<R>)
    requires MapResult(ctx, xs, f).Ok?
    ensures forall k :: 0 <= k < |xs| ==> f(ctx, xs[k]) == Ok(MapResult(ctx, xs, f).value[k])
    decreases |xs|
  {
    if xs != [] {
      var init := xs[..|xs| - 1];
      MapResultElements(ctx, init, f);
      assert forall k :: 0 <= k < |xs| - 1 ==> xs[k] == init[k];
    }
  }

  /** The loop succeeds exactly when every element does; otherwise it raises the first failing element's exception. */
  lemma {:induction false} MapResultFails<C, T, R>(ctx: C, xs: seq<T>, f: (C, T) -> Result<R>)
    ensures MapResult(ctx, xs, f).Ok? <==> forall k :: 0 <= k < |xs| ==> f(ctx, xs[k]).Ok?
    ensures MapResult(ctx, xs, f).Err? ==>
      exists k :: 0 <= k < |xs| && f(ctx, xs[k]) == Err(MapResult(ctx, xs, f).error)
        && forall j :: 0 <= j < k ==> f(ctx, xs[j]).Ok?
    decreases |xs|
  {
    if xs != [] {
      var init := xs[..|xs| - 1];
      MapResultFails(ctx, init, f);
      assert forall k :: 0 <= k < |xs| - 1 ==> xs[k] == init[k];
    }
  }

  /**
    The first loop of every transformer: `prepared_data` built element by
    element, the first exception escaping.
   */
  method PrepareData<C, T, R>(ctx: C, xs: seq<T>, f: (C, T) -> Result<R>) returns (r: Result<seq<R>>)
    ensures r == MapResult(ctx, xs, f)
  {
    var prepared: seq<R> := [];
    var i := 0;
    while i < |xs|
      invariant 0 <= i <= |xs|
      invariant MapResult(ctx, xs[..i], f) == Ok(prepared)
    {
      var y := f(ctx, xs[i]);
      MapResultStep(ctx, xs, i, f);
      if y.Err? {
        return Err(y.error);
      }
      prepared := prepared + [y.value];
      i := i + 1;
    }
    assert xs[..i] == xs;
    r := Ok(prepared);
  }

  /** The second loop of every transformer: `ordered_data`, each row read out in column order. */
  method OrderData<R, K>(rows: seq<R>, columns: seq<K>, lookup: (R, K) -> Cell) returns (ordered: seq<seq<Cell>>)
    ensures ordered == OrderRows(rows, columns, lookup)
  {
    ordered := [];
    for j := 0 to |rows|
      invariant ordered == OrderRows(rows[..j], columns, lookup)
    {
      assert rows[..j + 1] == rows[..j] + [rows[j]];
      ordered := ordered + [OrderRow(rows[j], columns, lookup)];
    }
    assert rows[..|rows|] == rows;
  }

  /** What a transformer returns: rows in column order, the column names, and the run's batch stamp. */
  datatype Batch = Batch(rows: seq<seq<Cell>>, columns: seq<string>, batchedAt: string)
}
