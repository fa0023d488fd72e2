/**
  The WooCommerce activity `woocommerce(payload)`: it resolves the fill
  type and the start of the window from the payload, builds the request
  for the client, and either reports that there was nothing to load or
  hands the orders to the transformer and the loader. What the client
  extracts and what the transformer and the loader do are inputs here;
  each has its own model.
 */
module WooActivity {
  import opened Wrappers
  import opened DateTimes
  import opened Values
  import W = WooExtraction

  /** `WooCommercePayload`. */
  datatype Payload = Payload(
    connectedId: string,
    baseUrl: string,
    consumerKey: string,
    consumerSecret: string,
    lastRunTs: Option<Moment>,
    fillType: Option<string>)

  /** `{"orders_processed": n, "status": s}`. */
  datatype Summary = Summary(ordersProcessed: nat, status: string)

  /** The fill type and the start of the window the activity settles on. */
  datatype Plan = Plan(fillType: string, start: DateTime)

  /** The days a first run reaches back. */
  const LookBack: nat := 30

  /**
    The fill type is the caller's hint, or "backfill" when the hint is
    missing or empty, even when there is a last run; without a last run
    it is "backfill" from `now` minus 30 days, which overflows before
    0001-01-31.
   */
  function Resolve(p: Payload, now: Moment): (r: Result<Plan>)
    ensures p.lastRunTs.Some? ==> r.Ok? && r.value.start == p.lastRunTs.value
    ensures p.lastRunTs.Some? ==>
      (r.value.fillType == "backfill" <==> p.fillType.None? || p.fillType.value == [] || p.fillType.value == "backfill")
    ensures p.lastRunTs.Some? && p.fillType.Some? && p.fillType.value != [] ==> r.value.fillType == p.fillType.value
    ensures p.lastRunTs.None? ==> (r.Ok? <==> Ordinal(now) > LookBack)
    ensures p.lastRunTs.None? && r.Ok? ==>
      && r.value.fillType == "backfill"
      && Valid(r.value.start) && Ordinal(r.value.start) == Ordinal(now) - LookBack
      && SameClock(r.value.start, now)
    ensures r.Err? ==> r.error == OverflowError
  {
    if p.lastRunTs.Some? then
      Ok(Plan(if p.fillType.Some? && p.fillType.value != [] then p.fillType.value else "backfill", p.lastRunTs.value))
    else
      MinusDaysOverflow(now, LookBack);
      match MinusDays(now, LookBack)
      case Err(e) => Err(e)
      case Ok(start) =>
        MinusDaysOrdinal(now, LookBack);
        Ok(Plan("backfill", start))
  }

  /** The same time of day and the same offset. */
  predicate SameClock(a: DateTime, b: DateTime) {
    a.hour == b.hour && a.minute == b.minute && a.second == b.second && a.micro == b.micro && a.offset == b.offset
  }

  /** The `WooOrderRequest` the activity builds: the start goes to the filter of its own fill type only. */
  function RequestFor(p: Payload, plan: Plan): (r: W.OrderRequest)
    ensures r.baseUrl == p.baseUrl && r.consumerKey == p.consumerKey && r.consumerSecret == p.consumerSecret
    ensures r.connectedId == p.connectedId && r.fillType == plan.fillType && r.perPage == Some(100)
    ensures r.createdAfter.Some? <==> plan.fillType == "backfill"
    ensures r.lastUpdatedAfter.Some? <==> plan.fillType == "incremental"
    ensures r.createdAfter.Some? ==> r.createdAfter.value == plan.start
    ensures r.lastUpdatedAfter.Some? ==> r.lastUpdatedAfter.value == plan.start
  {
    W.OrderRequest(p.baseUrl, p.consumerKey, p.consumerSecret, p.connectedId, plan.fillType,
                   if plan.fillType == "backfill" then Some(plan.start) else None,
                   if plan.fillType == "incremental" then Some(plan.start) else None,
                   Some(100))
  }

  /** A client holds the settings of a request. */
  predicate BuiltFrom(c: W.WooClient, r: W.OrderRequest) {
    && c.fillType == r.fillType && c.createdAfter == r.createdAfter && c.lastUpdatedAfter == r.lastUpdatedAfter
    && c.perPage == W.PerPageOf(r.perPage)
  }

  /**
    Every page the client then asks for carries the start in exactly the
    filter of the fill type and 100 records per page: `after` for a
    backfill, `modified_after` for an incremental run, and no filter at
    all for any other hint.
   */
  lemma PagesFilterByPlan(p: Payload, plan: Plan, c: W.WooClient, page: int)
    requires BuiltFrom(c, RequestFor(p, plan))
    ensures c.BuildParams(page).perPage == 100
    ensures c.BuildParams(page).after == if plan.fillType == "backfill" then Some(plan.start) else None
    ensures c.BuildParams(page).modifiedAfter == if plan.fillType == "incremental" then Some(plan.start) else None
  {
  }

  /**
    The end of the activity once the orders are in, or the exception
    `get_orders` raised: an empty extraction is reported as "no_data"
    whatever the transformer and the loader would have done; otherwise
    the count of extracted orders is reported unless the transformer or
    the loader raised (`downstream`). Every exception is re-raised.
   */
  function Finish(extracted: Result<seq<Value>>, downstream: Option<Exception>): (r: Result<Summary>)
    ensures extracted.Err? ==> r == Err(extracted.error)
    ensures extracted == Ok([]) ==> r == Ok(Summary(0, "no_data"))
    ensures extracted.Ok? && extracted.value != [] ==>
      (r.Ok? <==> downstream.None?) && (r.Ok? ==> r.value == Summary(|extracted.value|, "success"))
        && (r.Err? ==> r.error == downstream.value)
  {
    var orders :- extracted;
    if orders == [] then Ok(Summary(0, "no_data"))
    else if downstream.Some? then Err(downstream.value)
    else Ok(Summary(|orders|, "success"))
  }

  /** The whole activity: the resolution, then the end. */
  function Activity(p: Payload, now: Moment, extracted: Result<seq<Value>>, downstream: Option<Exception>)
    : Result<Summary>
  {
    var plan :- Resolve(p, now);
    Finish(extracted, downstream)
  }

  /** "success" is reported only for a non-empty extraction, with its count of orders. */
  lemma SuccessCountsOrders(p: Payload, now: Moment, extracted: Result<seq<Value>>, downstream: Option<Exception>)
    requires Activity(p, now, extracted, downstream).Ok?
    ensures extracted.Ok?
    ensures Activity(p, now, extracted, downstream).value.ordersProcessed == |extracted.value|
    ensures Activity(p, now, extracted, downstream).value.status == (if extracted.value == [] then "no_data" else "success")
  {
  }

  /**
    `woocommerce(payload)`: the resolution, the client built from the
    request, then the end; the client is returned with the result so that
    its settings can be stated.
   */
  method Woocommerce(p: Payload, now: Moment, extracted: Result<seq<Value>>, downstream: Option<Exception>)
    returns (r: Result<Summary>, client: Option<W.WooClient>)
    ensures r == Activity(p, now, extracted, downstream)
    ensures client.Some? <==> Resolve(p, now).Ok?
    ensures client.Some? ==> BuiltFrom(client.value, RequestFor(p, Resolve(p, now).value))
  {
    var plan := Resolve(p, now);
    if plan.Err? {
      return Err(plan.error), None;
    }
    var c := new W.WooClient(RequestFor(p, plan.value));
    client := Some(c);
    r := Finish(extracted, downstream);
  }
}
