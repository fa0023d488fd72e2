/**
  The Amazon activity `amazon(request)`: it resolves the fill type and the
  start from the nullable `last_run_ts`, builds the request for the
  client, and loads what was extracted unless there is nothing; any
  exception on the way ends it with None. What the client extracts and
  what the coercion, the transformer and the loader do are inputs here.
 */
module AmazonActivity {
  import opened Wrappers
  import opened DateTimes
  import opened Values
  import A = AmazonExtraction

  /** The fields of `AccountPayload` the activity reads; `last_run_ts` as the value it is given. */
  datatype Payload = Payload(
    connectedId: string,
    refreshToken: string,
    clientSecret: string,
    region: string,
    lastRunTs: Value)

  /** The fill type and the start of the window. */
  datatype Plan = Plan(fillType: string, start: Moment)

  /** The first instant of a day, as a naive datetime. */
  predicate Midnight(dt: DateTime) {
    dt.hour == 0 && dt.minute == 0 && dt.second == 0 && dt.micro == 0 && dt.offset.None?
  }

  /**
    No last run gives a backfill from day 1 of the previous month of the
    same year, which in January is month 0 and raises ValueError; a last
    run gives an incremental run from its '%Y-%m-%d %H:%M:%S' text, which
    raises ValueError when the text does not match and TypeError when it
    is not text at all.
   */
  function Resolve(lastRunTs: Value, now: Moment): (r: Result<Plan>)
    ensures lastRunTs.Null? ==> (r.Ok? <==> now.month > 1)
    ensures lastRunTs.Null? && r.Ok? ==>
      && r.value.fillType == "backfill" && Midnight(r.value.start)
      && r.value.start.year == now.year && r.value.start.month == now.month - 1 && r.value.start.day == 1
    ensures !lastRunTs.Null? ==> (r.Ok? <==> lastRunTs.Str? && StrptimeSeconds(lastRunTs.s).Some?)
    ensures !lastRunTs.Null? && r.Ok? ==> r.value == Plan("incremental", StrptimeSeconds(lastRunTs.s).value)
    ensures r.Err? ==> r.error == (if lastRunTs.Null? || lastRunTs.Str? then ValueError else TypeError)
  {
    if lastRunTs.Null? then
      if now.month == 1 then Err(ValueError)
      else Ok(Plan("backfill", DateTime(now.year, now.month - 1, 1, 0, 0, 0, 0, None)))
    else if !lastRunTs.Str? then Err(TypeError)
    else
      match StrptimeSeconds(lastRunTs.s)
      case None => Err(ValueError)
      case Some(start) => Ok(Plan("incremental", start))
  }

  /**
    A watermark kept as '%Y-%m-%d %H:%M:%S' text comes back as the
    incremental start it names, to the second and naive.
   */
  lemma WatermarkRoundTrip(last: Moment, now: Moment)
    ensures Resolve(Str(RenderSeconds(last)), now)
            == Ok(Plan("incremental", DateTime(last.year, last.month, last.day, last.hour, last.minute, last.second, 0, None)))
  {
    StrptimeRenderSeconds(last);
  }

  /**
    The `AmazonOrderRequest` the activity builds: the start always goes to
    `CreatedAfter`, `LastUpdatedAfter` is always None, 100 per page.
   */
  function RequestFor(p: Payload, plan: Plan): (r: A.OrderRequest)
    ensures r.refreshToken == p.refreshToken && r.clientSecret == p.clientSecret && r.region == p.region
    ensures r.fillType == plan.fillType && r.createdAfter == Some(plan.start) && r.lastUpdatedAfter.None?
    ensures r.maxResultsPerPage == Some(100)
  {
    A.OrderRequest(p.refreshToken, p.clientSecret, p.region, plan.fillType, Some(plan.start), None, Some(100))
  }

  /** A client holds the settings of a request. */
  predicate BuiltFrom(c: A.AmazonClient, r: A.OrderRequest) {
    && c.region == r.region && c.fillType == r.fillType
    && c.createdAfter == r.createdAfter && c.lastUpdatedAfter == r.lastUpdatedAfter
    && c.maxResultsPerPage == r.maxResultsPerPage && c.marketplaceIds == A.MarketplaceId(r.region)
  }

  /**
    The first orders request of a backfill filters on the start's date;
    that of an incremental run dereferences the missing `LastUpdatedAfter`
    and raises AttributeError before anything is sent.
   */
  lemma FirstRequestByPlan(p: Payload, plan: Plan, c: A.AmazonClient)
    requires BuiltFrom(c, RequestFor(p, plan))
    ensures plan.fillType == "incremental" ==> c.BuildParams(Null) == Err(AttributeError)
    ensures plan.fillType == "backfill" ==>
      c.BuildParams(Null).Ok? && c.BuildParams(Null).value.createdAfter == Some(DateText(plan.start))
      && c.BuildParams(Null).value.maxResultsPerPage == Some(100)
  {
  }

  /**
    The whole activity, None written as `Null`: the imports, the
    resolution, the token the client is built with, the extraction and
    then, for a non-empty extraction, the coercion, the transformer and
    the loader (`downstream`), whose result is returned. Nothing is raised.
   */
  function Activity(p: Payload, now: Moment, importsResolve: bool, grant: A.Grant,
                    extracted: Result<seq<Value>>, downstream: Result<Value>): (r: Value)
    ensures !importsResolve ==> r == Null
    ensures r != Null ==>
      && importsResolve && Resolve(p.lastRunTs, now).Ok? && grant.Granted?
      && extracted.Ok? && extracted.value != [] && downstream == Ok(r)
    ensures (importsResolve && Resolve(p.lastRunTs, now).Ok? && grant.Granted? && extracted.Ok? && extracted.value != []
             && downstream.Ok?) ==> r == downstream.value
  {
    if !importsResolve || Resolve(p.lastRunTs, now).Err? || grant.Refused? || extracted.Err? then Null
    else if extracted.value == [] then Null
    else if downstream.Err? then Null
    else downstream.value
  }

  /** Zero orders end the activity with None whatever the later stages would do. */
  lemma NothingLoadedWithoutOrders(p: Payload, now: Moment, importsResolve: bool, grant: A.Grant,
                                   downstream: Result<Value>, other: Result<Value>)
    ensures Activity(p, now, importsResolve, grant, Ok([]), downstream) == Null
    ensures Activity(p, now, importsResolve, grant, Ok([]), downstream) == Activity(p, now, importsResolve, grant, Ok([]), other)
  {
  }

  /**
    `amazon(request)`: the resolution, the client built from the request,
    then the end; the client is returned with the result so that its
    settings can be stated.
   */
  method Amazon(p: Payload, now: Moment, importsResolve: bool, grant: A.Grant,
                extracted: Result<seq<Value>>, downstream: Result<Value>)
    returns (r: Value, client: Option<A.AmazonClient>)
    ensures r == Activity(p, now, importsResolve, grant, extracted, downstream)
    ensures client.Some? <==> importsResolve && Resolve(p.lastRunTs, now).Ok? && grant.Granted?
    ensures client.Some? ==> BuiltFrom(client.value, RequestFor(p, Resolve(p.lastRunTs, now).value))
  {
    if !importsResolve {
      return Null, None;
    }
    var plan := Resolve(p.lastRunTs, now);
    if plan.Err? {
      return Null, None;
    }
    var made := A.NewClient(RequestFor(p, plan.value), grant);
    if made.Err? {
      return Null, None;
    }
    client := Some(made.value);
    r := Null;
    if extracted.Ok? && extracted.value != [] && downstream.Ok? {
      r := downstream.value;
    }
  }
}
