/**
  The Amazon Selling Partner client: its region tables, the sales interval,
  the query parameters of an orders request, the pause or token refresh
  before each attempt, and the retry/pagination loops of `get_orders` and
  `get_sales`.

  The HTTP layer is two scripts: one `Reply` per `requests.get` and one
  `Grant` per call to the token endpoint, each in the order the calls are
  made. Pauses, token refreshes and requests are written to a log of
  `Event`s. When a script runs out the run ends as `Exhausted`.
 */
module AmazonExtraction {
  import opened Wrappers
  import opened Literals
  import opened DateTimes
  import opened Values

  /** The request model the activity builds. */
  datatype OrderRequest = OrderRequest(
    refreshToken: string,
    clientSecret: string,
    region: string,
    fillType: string,
    createdAfter: Option<Moment>,
    lastUpdatedAfter: Option<Moment>,
    maxResultsPerPage: Option<int>)

  const ClientId: string := "amzn1.application-oa2-client.144c0aac9aa04fe89ef2efdcc8b16018"

  // ---------------------------------------------------------------------------
  // Region tables

  /** The region codes any of the tables knows. */
  datatype Region =
    | US | CA | MX | BR
    | IE | ES | UK | FR | BE | NL | DE | IT | SE | ZA | PL | EG | TR | SA | AE | IN
    | SG | AU | JP

  /** The code a region string names, if any table knows it. */
  function RegionOf(s: string): Option<Region> {
    if s == "US" then Some(US) else if s == "CA" then Some(CA)
    else if s == "MX" then Some(MX) else if s == "BR" then Some(BR)
    else if s == "IE" then Some(IE) else if s == "ES" then Some(ES)
    else if s == "UK" then Some(UK) else if s == "FR" then Some(FR)
    else if s == "BE" then Some(BE) else if s == "NL" then Some(NL)
    else if s == "DE" then Some(DE) else if s == "IT" then Some(IT)
    else if s == "SE" then Some(SE) else if s == "ZA" then Some(ZA)
    else if s == "PL" then Some(PL) else if s == "EG" then Some(EG)
    else if s == "TR" then Some(TR) else if s == "SA" then Some(SA)
    else if s == "AE" then Some(AE) else if s == "IN" then Some(IN)
    else if s == "SG" then Some(SG) else if s == "AU" then Some(AU)
    else if s == "JP" then Some(JP)
    else None
  }

  datatype Zone = NorthAmerica | Europe | FarEast

  /** The region lists shared by `_get_base_url_sales` and `_get_base_url_orders`; Ireland is in none of them. */
  function ZoneOf(region: string): Option<Zone> {
    match RegionOf(region)
    case None => None
    case Some(code) =>
      match code
      case US | CA | MX | BR => Some(NorthAmerica)
      case ES | UK | FR | BE | NL | DE | IT | SE | ZA | PL | EG | TR | SA | AE | IN => Some(Europe)
      case SG | AU | JP => Some(FarEast)
      case IE => None
  }

  /** The regional Selling Partner host. */
  function Host(zone: Zone): string {
    match zone
    case NorthAmerica => "https://sellingpartnerapi-na.amazon.com"
    case Europe => "https://sellingpartnerapi-eu.amazon.com"
    case FarEast => "https://sellingpartnerapi-fe.amazon.com"
  }

  /** `_get_base_url_sales(region)`. */
  function SalesUrl(region: string): Result<string> {
    match ZoneOf(region)
    case None => Err(ValueError)
    case Some(zone) => Ok(Host(zone) + "/sales/v1/orderMetrics")
  }

  /** `_get_base_url_orders(region)`. */
  function OrdersUrl(region: string): Result<string> {
    match ZoneOf(region)
    case None => Err(ValueError)
    case Some(zone) => Ok(Host(zone) + "/orders/v0/orders")
  }

  /** `_get_marketplace_ids(region)`: `marketplace_mapping.get(region, None)`. */
  function MarketplaceId(region: string): Option<string> {
    match RegionOf(region)
    case None => None
    case Some(code) =>
      Some(match code
        case CA => "A2EUQ1WTGCTBG2"
        case US => "ATVPDKIKX0DER"
        case MX => "A1AM78C64UM0Y8"
        case BR => "A2Q3Y263D00KWC"
        case IE => "A28R8C7NBKEWEA"
        case ES => "A1RKKUPIHCS9HS"
        case UK => "A1F83G8C2ARO7P"
        case FR => "A13V1IB3VIYZZH"
        case BE => "AMEN7PMS3EDWL"
        case NL => "A1805IZSGTT6HS"
        case DE => "A1PA6795UKMFR9"
        case IT => "APJ6JRA9NG5V4"
        case SE => "A2NODRKZP88ZB9"
        case ZA => "AE08WJ6YKNBMC"
        case PL => "A1C3SOZRARQ6R3"
        case EG => "ARBP9OOSHTCHU"
        case TR => "A33AVAJ2PDY3EV"
        case SA => "A17E79C6D8DWNP"
        case AE => "A2VIGQ35RCS4UG"
        case IN => "A21TJRUUN4KGV"
        case SG => "A19VAU5U5O7RUS"
        case AU => "A39IBJ37TRP1C6"
        case JP => "A1VC38T7YXB528")
  }

  /** The `timezone_offsets` table of `_interval_constructer`. */
  function TimezoneOffset(region: string): Option<string> {
    match RegionOf(region)
    case None => None
    case Some(code) =>
      match code
      case US | CA => Some("-07:00")
      case MX => Some("-06:00")
      case BR => Some("-03:00")
      case UK => Some("+00:00")
      case ES | FR | BE | NL | DE | IT | SE | PL => Some("+01:00")
      case ZA | EG => Some("+02:00")
      case TR | SA => Some("+03:00")
      case AE => Some("+04:00")
      case IN => Some("+05:30")
      case SG => Some("+08:00")
      case AU => Some("+10:00")
      case JP => Some("+09:00")
      case IE => None
  }

  /**
    The two endpoint tables, the offset table and the marketplace table
    agree on the supported regions: a region has an orders endpoint iff it
    has a sales endpoint, on the same host, iff it has a timezone offset;
    and every such region has a marketplace id.
   */
  lemma RegionTablesAgree(region: string)
    ensures OrdersUrl(region).Ok? <==> SalesUrl(region).Ok?
    ensures OrdersUrl(region).Ok? <==> TimezoneOffset(region).Some?
    ensures OrdersUrl(region).Ok? ==> MarketplaceId(region).Some?
    ensures OrdersUrl(region).Ok? ==>
      var host := Host(ZoneOf(region).value);
      OrdersUrl(region).value == host + "/orders/v0/orders" && SalesUrl(region).value == host + "/sales/v1/orderMetrics"
    ensures OrdersUrl(region).Err? ==> OrdersUrl(region).error == ValueError && SalesUrl(region).error == ValueError
  {
  }

  /** Ireland is the one region with a marketplace id but no endpoint and no offset. */
  lemma IrelandMarketplaceOnly(region: string)
    ensures MarketplaceId(region).Some? && OrdersUrl(region).Err? <==> region == "IE"
    ensures region == "IE" ==> TimezoneOffset(region).None?
  {
    if region == "IE" {
      assert RegionOf(region) == Some(IE);
    }
  }

  // ---------------------------------------------------------------------------
  // The sales interval

  /** One end of the interval: a date at midnight in the region's offset. */
  function Bound(day: Moment, offset: string): string {
    DateText(day) + "T00:00:00" + offset
  }

  /**
    `_interval_constructer` with `datetime.now()` as `today`: the region
    must have an offset (otherwise ValueError), then `CreatedAfter` is
    formatted (`strftime` on None is an AttributeError).
   */
  function Interval(region: string, createdAfter: Option<Moment>, today: Moment): (r: Result<string>)
    ensures TimezoneOffset(region).None? ==> r == Err(ValueError)
    ensures TimezoneOffset(region).Some? && createdAfter.None? ==> r == Err(AttributeError)
    ensures r.Ok? ==> TimezoneOffset(region).Some? && createdAfter.Some?
  {
    match TimezoneOffset(region)
    case None => Err(ValueError)
    case Some(offset) =>
      match createdAfter
      case None => Err(AttributeError)
      case Some(start) => Ok(Bound(start, offset) + "--" + Bound(today, offset))
  }

  /** `+HH:MM` or `-HH:MM` with hours below 20 and minutes below 60. */
  predicate OffsetShape(s: string) {
    && |s| == 6 && (s[0] == '+' || s[0] == '-') && s[3] == ':'
    && '0' <= s[1] <= '1' && IsDigit(s[2]) && '0' <= s[4] <= '5' && IsDigit(s[5])
  }

  lemma TwoDigits(s: string)
    requires |s| == 2 && IsDigit(s[0]) && IsDigit(s[1])
    ensures AllDigits(s) && DigitsValue(s) == DigitValue(s[0]) * 10 + DigitValue(s[1])
  {
    var head := s[..1];
    assert AllDigits(s);
    assert head[..0] == [] && head[0] == s[0];
    assert DigitsValue(head) == DigitValue(s[0]);
    assert DigitsValue(s) == DigitsValue(head) * 10 + DigitValue(s[1]);
  }

  /** An offset of that shape is one `fromisoformat` accepts. */
  lemma ShapeParses(s: string)
    requires OffsetShape(s)
    ensures s[0] != '.' && ParseOffset(s).Some? && ParseOffset(s).value.Some?
  {
    TwoDigits(s[1..3]);
    TwoDigits(s[4..]);
  }

  /** Every offset of the table has that shape. */
  lemma OffsetsParse(region: string)
    requires TimezoneOffset(region).Some?
    ensures OffsetShape(TimezoneOffset(region).value)
  {
  }

  /** An end of the interval reads back, with `fromisoformat`, as that day at midnight in that offset. */
  lemma BoundParses(day: Moment, offset: string)
    requires OffsetShape(offset)
    ensures ParseOffset(offset).Some?
    ensures FromIsoFormat(Bound(day, offset))
         == Some(DateTime(day.year, day.month, day.day, 0, 0, 0, 0, ParseOffset(offset).value))
  {
    var s := Bound(day, offset);
    assert s[..10] == DateText(day);
    assert s[11..19] == "00:00:00";
    assert s[19..] == offset;
    ParseDateText(day);
    ShapeParses(offset);
    var clock := s[11..19];
    TwoDigits(clock[..2]);
    TwoDigits(clock[3..5]);
    TwoDigits(clock[6..]);
  }

  /**
    The interval is two ends joined by `--`: the start date and today, each
    at midnight in the region's offset, and each reads back as such.
   */
  lemma IntervalBounds(region: string, start: Moment, today: Moment)
    requires TimezoneOffset(region).Some?
    ensures var s := Interval(region, Some(start), today).value;
      var o := ParseOffset(TimezoneOffset(region).value);
      && |s| == 52 && s[25..27] == "--" && o.Some? && o.value.Some?
      && FromIsoFormat(s[..25]) == Some(DateTime(start.year, start.month, start.day, 0, 0, 0, 0, o.value))
      && FromIsoFormat(s[27..]) == Some(DateTime(today.year, today.month, today.day, 0, 0, 0, 0, o.value))
  {
    var offset := TimezoneOffset(region).value;
    OffsetsParse(region);
    ShapeParses(offset);
    var s := Interval(region, Some(start), today).value;
    assert s[..25] == Bound(start, offset);
    assert s[27..] == Bound(today, offset);
    BoundParses(start, offset);
    BoundParses(today, offset);
  }

  // ---------------------------------------------------------------------------
  // Requests, replies and the log

  /** The query parameters of an orders request; `None` ones are not sent. */
  datatype OrderParams = OrderParams(
    marketplaceIds: Option<string>,
    maxResultsPerPage: Option<int>,
    nextToken: Option<Value>,
    createdAfter: Option<string>,        // `strftime('%Y-%m-%d')`
    lastUpdatedAfter: Option<string>)    // `strftime('%Y-%m-%d')`

  /** The query parameters of a sales request. */
  datatype SalesParams = SalesParams(marketplaceIds: Option<string>, interval: string, granularity: string)

  /** What the client writes instead of sleeping or calling the network; each request carries the access token of its header. */
  datatype Event =
    | Wait(seconds: int)
    | Refresh
    | FetchOrders(accessToken: string, params: OrderParams)
    | FetchSales(accessToken: string, sales: SalesParams)

  /** One scripted answer to `requests.get`: a response with its decoded JSON body, or the exception the call raised. */
  datatype Reply = Response(status: int, body: Value) | Failure

  /** One scripted answer of the token endpoint: a new access token, or a failure (`_get_access_token` raises). */
  datatype Grant = Granted(token: string) | Refused

  datatype Outcome<T> =
    | Done(value: T)
    | Raised(error: Exception)
    | Exhausted(held: T)

  /** The statuses retried without a pause. */
  predicate Transient(status: int) {
    status in {429, 403, 500, 502, 503, 504}
  }

  /** What `_enforce_rate_limit` does before an attempt, chosen by the previous status. */
  datatype Limit =
    | Pause(waits: seq<Event>)
    | Refreshed(token: string)
    | RefreshFailed
    | NoGrant                  // the grant script has run out

  function RateLimit(status: int, grants: seq<Grant>): Limit {
    if status == 429 then Pause([Wait(60)])
    else if status == 403 then
      if grants == [] then NoGrant
      else if grants[0].Granted? then Refreshed(grants[0].token)
      else RefreshFailed
    else if status >= 500 then Pause([Wait(30)])
    else Pause([])
  }

  function LimitEvents(l: Limit): seq<Event> {
    if l.Pause? then l.waits else [Refresh]
  }

  function LimitGrants(l: Limit): nat {
    if l.Refreshed? || l.RefreshFailed? then 1 else 0
  }

  /**
    `result.get("payload", {}).get("Orders", [])` extended onto the orders,
    and `result.get("payload", {}).get("NextToken")`: `.get` on a value
    that is not a dict is an AttributeError, and `extend` with a value
    that is not a list is taken as a TypeError.
   */
  function Page(body: Value): (r: Result<(seq<Value>, Value)>) {
    var payload :- GetIn(body, "payload", Object(map[]));
    var orders :- GetIn(payload, "Orders", List([]));
    if !orders.List? then Err(TypeError)
    else Ok((orders.items, GetIn(payload, "NextToken", Null).value))
  }

  // ---------------------------------------------------------------------------
  // The client

  class AmazonClient {
    const refreshToken: string
    const clientSecret: string
    const region: string
    const fillType: string
    const createdAfter: Option<Moment>
    const lastUpdatedAfter: Option<Moment>
    const maxResultsPerPage: Option<int>
    const clientId: string
    const marketplaceIds: Option<string>
    var accessToken: string
    var currentStatusCode: int

    /** `__init__` once the token endpoint has granted `token`. */
    constructor (request: OrderRequest, token: string)
      ensures refreshToken == request.refreshToken && clientSecret == request.clientSecret
      ensures region == request.region && fillType == request.fillType
      ensures createdAfter == request.createdAfter && lastUpdatedAfter == request.lastUpdatedAfter
      ensures maxResultsPerPage == request.maxResultsPerPage && clientId == ClientId
      ensures marketplaceIds == MarketplaceId(request.region)
      ensures accessToken == token && currentStatusCode == 0
    {
      refreshToken := request.refreshToken;
      region := request.region;
      createdAfter := request.createdAfter;
      lastUpdatedAfter := request.lastUpdatedAfter;
      maxResultsPerPage := request.maxResultsPerPage;
      clientId := ClientId;
      clientSecret := request.clientSecret;
      accessToken := token;
      marketplaceIds := MarketplaceId(request.region);
      currentStatusCode := 0;
      fillType := request.fillType;
    }

    /**
      The parameters of an orders request for `current_token`: the token
      alone when there is one, otherwise the date filter of the fill type
      (an AttributeError when that date is None), otherwise neither.
     */
    function BuildParams(token: Value): (r: Result<OrderParams>)
      ensures r.Err? <==> token.Null? && ((fillType == "backfill" && createdAfter.None?)
                                        || (fillType == "incremental" && lastUpdatedAfter.None?))
      ensures r.Err? ==> r.error == AttributeError
      ensures r.Ok? ==> r.value.marketplaceIds == marketplaceIds && r.value.maxResultsPerPage == maxResultsPerPage
      ensures r.Ok? ==> (r.value.nextToken.Some? <==> !token.Null?) && (r.value.nextToken.Some? ==> r.value.nextToken.value == token)
      ensures r.Ok? ==> (r.value.createdAfter.Some? <==> token.Null? && fillType == "backfill")
      ensures r.Ok? ==> (r.value.lastUpdatedAfter.Some? <==> token.Null? && fillType == "incremental")
      ensures r.Ok? && r.value.createdAfter.Some? ==> r.value.createdAfter.value == DateText(createdAfter.value)
      ensures r.Ok? && r.value.lastUpdatedAfter.Some? ==> r.value.lastUpdatedAfter.value == DateText(lastUpdatedAfter.value)
    {
      var base := OrderParams(marketplaceIds, maxResultsPerPage, None, None, None);
      if !token.Null? then Ok(base.(nextToken := Some(token)))
      else if fillType == "backfill" then
        if createdAfter.None? then Err(AttributeError)
        else Ok(base.(createdAfter := Some(DateText(createdAfter.value))))
      else if fillType == "incremental" then
        if lastUpdatedAfter.None? then Err(AttributeError)
        else Ok(base.(lastUpdatedAfter := Some(DateText(lastUpdatedAfter.value))))
      else Ok(base)
    }

    /** The parameters of a sales request on `today`. */
    function BuildSalesParams(today: Moment): (r: Result<SalesParams>)
      ensures r.Ok? <==> Interval(region, createdAfter, today).Ok?
      ensures r.Ok? ==> r.value == SalesParams(marketplaceIds, Interval(region, createdAfter, today).value, "Day")
    {
      var interval :- Interval(region, createdAfter, today);
      Ok(SalesParams(marketplaceIds, interval, "Day"))
    }

    /** `_enforce_rate_limit`: a pause, or a call to the token endpoint whose token replaces the current one. */
    method EnforceRateLimit(grants: seq<Grant>) returns (l: Limit)
      modifies this
      ensures l == RateLimit(old(currentStatusCode), grants)
      ensures accessToken == (if l.Refreshed? then l.token else old(accessToken))
      ensures currentStatusCode == old(currentStatusCode)
    {
      if currentStatusCode == 429 {
        l := Pause([Wait(60)]);
      } else if currentStatusCode == 403 {
        if grants == [] {
          l := NoGrant;
        } else if grants[0].Granted? {
          accessToken := grants[0].token;
          l := Refreshed(grants[0].token);
        } else {
          l := RefreshFailed;
        }
      } else if currentStatusCode >= 500 {
        l := Pause([Wait(30)]);
      } else {
        l := Pause([]);
      }
    }

    /** The `try` body of `get_orders` from the reply on: the client keeps its status. */
    method Receive(events: seq<Event>, s: Loop, reply: Reply, g: nat) returns (a: Step)
      modifies this
      requires s.status == currentStatusCode
      ensures a == Handle(events, s, reply, g)
      ensures currentStatusCode == a.State().status && accessToken == old(accessToken)
    {
      match reply {
        case Failure =>
          a := Caught(events, s, RequestFailed, 1, g);
        case Response(status, body) =>
          currentStatusCode := status;
          var s' := s.(status := status);
          if status == 200 {
            var page := Page(body);
            if page.Err? {
              a := Caught(events, s', page.error, 1, g);
            } else {
              a := Step(events, Go(Outer(s'.(orders := s.orders + page.value.0, token := page.value.1))), 1, g);
            }
          } else if Transient(status) {
            if s.retry + 1 == 3 {
              a := Caught(events, s'.(retry := 3), MaxRetries(status), 1, g);
            } else {
              a := Step(events, Go(Continuing(s'.(retry := s.retry + 1))), 1, g);
            }
          } else {
            a := Caught(events, s', UnexpectedStatus(status), 1, g);
          }
      }
    }

    /** The request of an attempt after the rate limit `l`, `s` holding the access token in force. */
    method Send(s: Loop, l: Limit, replies: seq<Reply>) returns (a: Step)
      modifies this
      requires !l.NoGrant? && s.status == currentStatusCode
      ensures a == Request(this, s, l, replies)
      ensures currentStatusCode == a.State().status && accessToken == old(accessToken)
    {
      var events := LimitEvents(l);
      var g := LimitGrants(l);
      if l.RefreshFailed? {
        return Caught(events, s, TokenRefreshFailed, 0, g);
      }
      var url := OrdersUrl(region);
      if url.Err? {
        return Caught(events, s, url.error, 0, g);
      }
      var params := BuildParams(s.token);
      if params.Err? {
        return Caught(events, s, params.error, 0, g);
      }
      events := events + [FetchOrders(s.access, params.value)];
      if replies == [] {
        return Step(events, Stop(Exhausted(s.orders), s), 0, g);
      }
      a := Receive(events, s, replies[0], g);
    }

    /**
      One pass through the `try` body of `get_orders` with its `except`
      clause, answering the token endpoint from `grants` and the request
      from `replies`: the client keeps the new access token and status.
     */
    method TryOrders(s: Loop, replies: seq<Reply>, grants: seq<Grant>) returns (a: Step)
      modifies this
      requires s.status == currentStatusCode && s.access == accessToken
      ensures a == Attempt(this, s, replies, grants)
      ensures currentStatusCode == a.State().status && accessToken == a.State().access
    {
      var l := EnforceRateLimit(grants);
      if l.NoGrant? {
        return Step(LimitEvents(l), Stop(Exhausted(s.orders), s), 0, 0);
      }
      assert s.(access := accessToken) == if l.Refreshed? then s.(access := l.token) else s;
      a := Send(s.(access := accessToken), l, replies);
    }

    /** One pass of the inner loop of `get_orders`, stated as the rest of the run it leaves. */
    method Pass(ghost goal: Trace<seq<Value>>, ghost log: seq<Event>, i: nat, j: nat,
                s: Loop, replies: seq<Reply>, grants: seq<Grant>)
      returns (a: Step)
      modifies this
      requires i <= |replies| && j <= |grants| && s.retry < 3
      requires s.status == currentStatusCode && s.access == accessToken
      requires goal == Pending(this, log, i, j, Continuing(s), replies, grants)
      ensures i + a.replies <= |replies| && j + a.grants <= |grants|
      ensures a.State().status == currentStatusCode && a.State().access == accessToken
      ensures a.next.Stop? ==> goal == Trace(a.next.outcome, log + a.events, currentStatusCode, accessToken, i + a.replies, j + a.grants)
      ensures a.next.Go? ==> goal == Pending(this, log + a.events, i + a.replies, j + a.grants, a.next.phase, replies, grants)
      ensures a.next.Go? && a.next.phase.Outer? ==> a.replies == 1
      ensures a.next.Go? && a.replies + a.grants == 0 ==> a.next.phase.Continuing? && a.next.phase.s.retry == s.retry + 1 < 3
    {
      a := TryOrders(s, replies[i..], grants[j..]);
      RunOn(this, s, replies[i..], grants[j..], a);
      AttemptStep(this, s, replies, grants, i, j, a, log, goal);
    }

    /**
      The inner loop of `get_orders`: attempts from `s` until one stops
      the run, a 200 leads to the outer test, or the budget is spent
      (which needs at least one reply or grant).
     */
    method Retries(ghost goal: Trace<seq<Value>>, log: seq<Event>, i: nat, j: nat,
                   s: Loop, replies: seq<Reply>, grants: seq<Grant>)
      returns (stop: Option<Outcome<seq<Value>>>, log': seq<Event>, i': nat, j': nat, p: Phase)
      modifies this
      requires i <= |replies| && j <= |grants| && s.retry == 0
      requires s.status == currentStatusCode && s.access == accessToken
      requires goal == Pending(this, log, i, j, Continuing(s), replies, grants)
      ensures i' <= |replies| && j' <= |grants|
      ensures stop.Some? ==> goal == Trace(stop.value, log', currentStatusCode, accessToken, i', j')
      ensures stop.None? ==> i + j < i' + j' && p.s.status == currentStatusCode && p.s.access == accessToken
      ensures stop.None? ==> goal == Pending(this, log', i', j', Outer(p.s), replies, grants)
    {
      log', i', j', p := log, i, j, Continuing(s);
      while p.s.retry < 3
        invariant i' <= |replies| && j' <= |grants| && i + j <= i' + j'
        invariant p.Continuing? && p.s.status == currentStatusCode && p.s.access == accessToken
        invariant p.s.retry >= 3 ==> i + j < i' + j'
        invariant goal == Pending(this, log', i', j', p, replies, grants)
        decreases |replies| - i' + |grants| - j', 3 - p.s.retry
      {
        var a := Pass(goal, log', i', j', p.s, replies, grants);
        log', i', j' := log' + a.events, i' + a.replies, j' + a.grants;
        if a.next.Stop? {
          return Some(a.next.outcome), log', i', j', p;
        }
        p := a.next.phase;
        if p.Outer? {
          return None, log', i', j', p;
        }
      }
      EnterPage(this, p.s, replies[i'..], grants[j'..]);
      stop := None;
    }

    /**
      `get_orders(nextToken)`, its two loops written out. The result, the
      log and the client's final token and status are those of `Run` from
      the given token with a fresh retry budget.
     */
    method GetOrders(nextToken: Option<string>, replies: seq<Reply>, grants: seq<Grant>)
      returns (outcome: Outcome<seq<Value>>, log: seq<Event>)
      modifies this
      ensures var t := Run(this, Loop(TokenValue(nextToken), 0, old(currentStatusCode), old(accessToken), []), replies, grants);
        outcome == t.outcome && log == t.log && currentStatusCode == t.status && accessToken == t.access
    {
      ghost var goal := Run(this, Loop(TokenValue(nextToken), 0, currentStatusCode, accessToken, []), replies, grants);
      var orders: seq<Value> := [];
      var token := TokenValue(nextToken);
      var i: nat, j: nat := 0, 0;
      log := [];
      EnterRetry(this, Loop(token, 0, currentStatusCode, accessToken, orders), replies, grants);
      assert replies[0..] == replies && grants[0..] == grants && [] + goal.log == goal.log;
      while true
        invariant i <= |replies| && j <= |grants|
        invariant goal == Pending(this, log, i, j, Continuing(Loop(token, 0, currentStatusCode, accessToken, orders)), replies, grants)
        decreases |replies| - i + |grants| - j
      {
        var stop, p;
        stop, log, i, j, p := Retries(goal, log, i, j, Loop(token, 0, currentStatusCode, accessToken, orders), replies, grants);
        if stop.Some? {
          return stop.value, log;
        }
        OuterStep(this, p.s, replies, grants, log, i, j, goal);
        token, orders := p.s.token, p.s.orders;
        if !Truthy(token) {
          break;
        }
      }
      outcome := Done(orders);
    }

    /** One pass through the `try` body of `get_sales` with its `except` clause. */
    method TrySales(today: Moment, s: Sales, replies: seq<Reply>, grants: seq<Grant>) returns (a: SalesStep)
      modifies this
      requires s.retry < 3 && s.status == currentStatusCode && s.access == accessToken
      ensures a == SalesAttempt(this, today, s, replies, grants)
      ensures currentStatusCode == a.after.status && accessToken == a.after.access
    {
      var l := EnforceRateLimit(grants);
      var events := LimitEvents(l);
      var g := LimitGrants(l);
      if l.NoGrant? {
        return SalesStep(events, Some(Exhausted(None)), s, 0, 0);
      }
      var s' := s.(access := accessToken);
      if l.RefreshFailed? {
        return SalesCaught(events, s', TokenRefreshFailed, 0, g);
      }
      var url := SalesUrl(region);
      if url.Err? {
        return SalesCaught(events, s', url.error, 0, g);
      }
      var params := BuildSalesParams(today);
      if params.Err? {
        return SalesCaught(events, s', params.error, 0, g);
      }
      events := events + [FetchSales(accessToken, params.value)];
      if replies == [] {
        return SalesStep(events, Some(Exhausted(None)), s', 0, g);
      }
      match replies[0] {
        case Failure =>
          a := SalesCaught(events, s', RequestFailed, 1, g);
        case Response(status, body) =>
          currentStatusCode := status;
          s' := s'.(status := status);
          if status == 200 {
            a := SalesStep(events, Some(Done(Some(body))), s', 1, g);
          } else if Transient(status) {
            if s.retry + 1 == 3 {
              a := SalesCaught(events, s'.(retry := 3), MaxRetries(status), 1, g);
            } else {
              a := SalesStep(events, None, s'.(retry := s.retry + 1), 1, g);
            }
          } else {
            a := SalesCaught(events, s', UnexpectedStatus(status), 1, g);
          }
      }
    }

    /** One pass of the `get_sales` loop, stated as the rest of the run it leaves. */
    method SalesPass(ghost goal: Trace<Option<Value>>, ghost log: seq<Event>, i: nat, j: nat,
                     today: Moment, s: Sales, replies: seq<Reply>, grants: seq<Grant>)
      returns (a: SalesStep)
      modifies this
      requires i <= |replies| && j <= |grants| && s.retry < 3
      requires s.status == currentStatusCode && s.access == accessToken
      requires goal == SalesPending(this, today, log, i, j, s, replies, grants)
      ensures i + a.replies <= |replies| && j + a.grants <= |grants|
      ensures a.after.status == currentStatusCode && a.after.access == accessToken
      ensures a.stop.Some? ==> goal == Trace(a.stop.value, log + a.events, currentStatusCode, accessToken, i + a.replies, j + a.grants)
      ensures a.stop.None? ==> goal == SalesPending(this, today, log + a.events, i + a.replies, j + a.grants, a.after, replies, grants)
      ensures a.stop.None? && a.replies + a.grants == 0 ==> a.after.retry == s.retry + 1 < 3
    {
      a := TrySales(today, s, replies[i..], grants[j..]);
      SalesOn(this, today, s, replies[i..], grants[j..], a);
      if a.stop.Some? {
        SalesStopped(this, today, s, replies, grants, i, j, a, log, goal);
      } else {
        SalesGoes(this, today, s, replies, grants, i, j, a, log, goal);
      }
    }

    /**
      `get_sales()` on `today`: the result, the log and the client's final
      token and status are those of `Sales` from a fresh retry budget.
     */
    method GetSales(today: Moment, replies: seq<Reply>, grants: seq<Grant>)
      returns (outcome: Outcome<Option<Value>>, log: seq<Event>)
      modifies this
      ensures var t := SalesFrom(this, today, Sales(0, old(currentStatusCode), old(accessToken)), replies, grants);
        outcome == t.outcome && log == t.log && currentStatusCode == t.status && accessToken == t.access
    {
      ghost var goal := SalesFrom(this, today, Sales(0, currentStatusCode, accessToken), replies, grants);
      var s := Sales(0, currentStatusCode, accessToken);
      var i: nat, j: nat := 0, 0;
      log := [];
      assert replies[0..] == replies && grants[0..] == grants && [] + goal.log == goal.log;
      while s.retry < 3
        invariant i <= |replies| && j <= |grants|
        invariant s.status == currentStatusCode && s.access == accessToken
        invariant goal == SalesPending(this, today, log, i, j, s, replies, grants)
        decreases |replies| - i + |grants| - j, 3 - s.retry
      {
        var a := SalesPass(goal, log, i, j, today, s, replies, grants);
        log, i, j := log + a.events, i + a.replies, j + a.grants;
        if a.stop.Some? {
          return a.stop.value, log;
        }
        s := a.after;
      }
      SalesEnd(this, today, s, replies, grants, log, i, j, goal);
      outcome := Done(None);
    }
  }

  /** `nextToken` as the loop holds it: None, or the string. */
  function TokenValue(nextToken: Option<string>): Value {
    if nextToken.None? then Null else Str(nextToken.value)
  }

  // ---------------------------------------------------------------------------
  // `get_orders` as a function of the scripts

  /** The loop variables: `current_token`, `retry_count`, `current_status_code`, `access_token`, `master_orders`. */
  datatype Loop = Loop(token: Value, retry: nat, status: int, access: string, orders: seq<Value>)

  /** Where an attempt leaves the loop: at the inner loop's condition, or, after a 200, at the outer token test. */
  datatype Phase = Continuing(s: Loop) | Outer(s: Loop)

  datatype Next<T> = Stop(outcome: Outcome<T>, last: Loop) | Go(phase: Phase)

  /** One attempt: what it logged, where it leads, and how many replies and grants it used. */
  datatype Step = Step(events: seq<Event>, next: Next<seq<Value>>, replies: nat, grants: nat) {
    /** The loop variables after the attempt. */
    function State(): Loop {
      if next.Stop? then next.last else next.phase.s
    }
  }

  /** A whole run: its outcome, its log, the last status and token, and how many replies and grants it used. */
  datatype Trace<T> = Trace(outcome: Outcome<T>, log: seq<Event>, status: int, access: string, replies: nat, grants: nat)

  function Prefix<T>(events: seq<Event>, r: nat, g: nat, t: Trace<T>): Trace<T> {
    t.(log := events + t.log, replies := r + t.replies, grants := g + t.grants)
  }

  /** The `except` clause: count the failure, re-raise on the third, otherwise pause 5 × count. */
  function Caught(events: seq<Event>, s: Loop, e: Exception, r: nat, g: nat): (a: Step)
    ensures a.replies == r && a.grants == g && a.State() == s.(retry := s.retry + 1)
    ensures a.next.Stop? <==> s.retry + 1 == 3
    ensures a.next.Go? ==> a.next.phase.Continuing?
    ensures a.next.Stop? ==> a.next.outcome == Raised(e)
    ensures |a.events| >= |events| && a.events[..|events|] == events
  {
    var retry := s.retry + 1;
    if retry == 3 then Step(events, Stop(Raised(e), s.(retry := retry)), r, g)
    else Step(events + [Wait(5 * retry)], Go(Continuing(s.(retry := retry))), r, g)
  }

  /** What the `try` body does with the reply to its request. */
  function Handle(events: seq<Event>, s: Loop, reply: Reply, g: nat): (a: Step)
    ensures a.replies == 1 && a.grants == g
    ensures a.next.Go? && a.next.phase.Continuing? ==> a.State().retry > s.retry
    ensures a.State().access == s.access
    ensures a.next.Go? ==> a.next.phase.s.orders == s.orders + Appended(reply)
    ensures a.next.Stop? ==> a.next.outcome.Raised? && !a.next.outcome.error.MaxRetries?
  {
    match reply
    case Failure => Caught(events, s, RequestFailed, 1, g)
    case Response(status, body) =>
      var s' := s.(status := status);
      if status == 200 then
        match Page(body)
        case Err(e) => Caught(events, s', e, 1, g)
        case Ok(page) => Step(events, Go(Outer(s'.(orders := s.orders + page.0, token := page.1))), 1, g)
      else if Transient(status) then
        if s.retry + 1 == 3 then Caught(events, s'.(retry := 3), MaxRetries(status), 1, g)
        else Step(events, Go(Continuing(s'.(retry := s.retry + 1))), 1, g)
      else Caught(events, s', UnexpectedStatus(status), 1, g)
  }

  /**
    The request of an attempt once the rate limit `l` has run, `s`
    holding the access token then in force: a failed refresh, an unknown
    region or missing parameters go to the `except` clause before any
    request is sent.
   */
  function Request(c: AmazonClient, s: Loop, l: Limit, replies: seq<Reply>): (a: Step)
    requires !l.NoGrant?
    ensures a.replies <= 1 && a.replies <= |replies| && a.grants == LimitGrants(l)
    ensures a.State().access == s.access
    ensures a.replies == 0 && a.next.Go? ==> a.next.phase == Continuing(s.(retry := s.retry + 1)) && s.retry + 1 != 3
    ensures a.next.Go? && a.next.phase.Outer? ==> a.replies == 1
    ensures a.next.Go? ==> a.next.phase.s.orders == s.orders + (if a.replies == 1 then Appended(replies[0]) else [])
    ensures a.next.Stop? ==> (a.next.outcome.Raised? && !a.next.outcome.error.MaxRetries?)
                             || (a.next.outcome == Exhausted(s.orders) && a.replies == 0)
  {
    var events := LimitEvents(l);
    var g := LimitGrants(l);
    if l.RefreshFailed? then Caught(events, s, TokenRefreshFailed, 0, g)
    else if OrdersUrl(c.region).Err? then Caught(events, s, OrdersUrl(c.region).error, 0, g)
    else
      match c.BuildParams(s.token)
      case Err(e) => Caught(events, s, e, 0, g)
      case Ok(params) =>
        var events' := events + [FetchOrders(s.access, params)];
        if replies == [] then Step(events', Stop(Exhausted(s.orders), s), 0, g)
        else Handle(events', s, replies[0], g)
  }

  /**
    One attempt from loop state `s`: the rate limit for the previous
    status, then the request. An attempt that uses neither a reply nor a
    grant can only count a failure below three.
   */
  function Attempt(c: AmazonClient, s: Loop, replies: seq<Reply>, grants: seq<Grant>): (a: Step)
    ensures a.replies <= 1 && a.replies <= |replies| && a.grants <= |grants|
    ensures a.replies + a.grants == 0 && a.next.Go? ==> a.next.phase == Continuing(s.(retry := s.retry + 1)) && s.retry + 1 != 3
    ensures a.next.Go? && a.next.phase.Outer? ==> a.replies == 1
    ensures a.next.Go? ==> a.next.phase.s.orders == s.orders + (if a.replies == 1 then Appended(replies[0]) else [])
    ensures a.next.Stop? ==> (a.next.outcome.Raised? && !a.next.outcome.error.MaxRetries?)
                             || (a.next.outcome == Exhausted(s.orders) && a.replies == 0)
  {
    var l := RateLimit(s.status, grants);
    if l.NoGrant? then Step(LimitEvents(l), Stop(Exhausted(s.orders), s), 0, 0)
    else Request(c, if l.Refreshed? then s.(access := l.token) else s, l, replies)
  }

  /**
    The loop state of the next attempt after a phase: the same one while
    the inner condition holds, otherwise a fresh budget for the current
    token, unless there is no token to go on with.
   */
  function Resume(p: Phase): (r: Option<Loop>)
    ensures r.Some? ==> r.value.retry < 3
  {
    if p.Continuing? && p.s.retry < 3 then Some(p.s)
    else if Truthy(p.s.token) then Some(p.s.(retry := 0))
    else None
  }

  /** The run of `get_orders` from an attempt in state `s`, with `replies` and `grants` still unread. */
  function Run(c: AmazonClient, s: Loop, replies: seq<Reply>, grants: seq<Grant>): Trace<seq<Value>>
    requires s.retry < 3
    decreases |replies| + |grants|, 3 - s.retry, 0
  {
    var a := Attempt(c, s, replies, grants);
    if a.next.Stop? then Trace(a.next.outcome, a.events, a.next.last.status, a.next.last.access, a.replies, a.grants)
    else Prefix(a.events, a.replies, a.grants, After(c, a.next.phase, replies[a.replies..], grants[a.grants..]))
  }

  /** How many attempts the budget of a phase still allows. */
  function Budget(p: Phase): nat {
    match Resume(p)
    case None => 0
    case Some(s) => 3 - s.retry
  }

  /** The run from a phase: the outer test may end it with the orders held. */
  function After(c: AmazonClient, p: Phase, replies: seq<Reply>, grants: seq<Grant>): Trace<seq<Value>>
    decreases |replies| + |grants|, Budget(p), 1
  {
    match Resume(p)
    case None => Trace(Done(p.s.orders), [], p.s.status, p.s.access, 0, 0)
    case Some(s) => Run(c, s, replies, grants)
  }

  /**
    The whole run as the loop sees it: the events logged so far, `i`
    replies and `j` grants used, then the run from phase `p` on the rest.
   */
  function Pending(c: AmazonClient, log: seq<Event>, i: nat, j: nat, p: Phase, replies: seq<Reply>, grants: seq<Grant>): Trace<seq<Value>>
    requires i <= |replies| && j <= |grants|
  {
    Prefix(log, i, j, After(c, p, replies[i..], grants[j..]))
  }

  /** The run from the top of the inner loop, its first attempt `a` unfolded. */
  lemma RunOn(c: AmazonClient, s: Loop, replies: seq<Reply>, grants: seq<Grant>, a: Step)
    requires s.retry < 3 && a == Attempt(c, s, replies, grants)
    ensures After(c, Continuing(s), replies, grants) ==
      if a.next.Stop? then Trace(a.next.outcome, a.events, a.next.last.status, a.next.last.access, a.replies, a.grants)
      else Prefix(a.events, a.replies, a.grants, After(c, a.next.phase, replies[a.replies..], grants[a.grants..]))
  {
  }

  lemma EnterRetry(c: AmazonClient, s: Loop, replies: seq<Reply>, grants: seq<Grant>)
    requires s.retry < 3
    ensures After(c, Continuing(s), replies, grants) == Run(c, s, replies, grants)
  {
  }

  /** After the inner loop, by its condition or by `break`: the outer test ends the run or starts afresh with the token. */
  lemma EnterPage(c: AmazonClient, s: Loop, replies: seq<Reply>, grants: seq<Grant>)
    ensures s.retry >= 3 ==> After(c, Continuing(s), replies, grants) == After(c, Outer(s), replies, grants)
    ensures After(c, Outer(s), replies, grants)
         == if Truthy(s.token) then Run(c, s.(retry := 0), replies, grants)
            else Trace(Done(s.orders), [], s.status, s.access, 0, 0)
  {
  }

  /** One pass of the inner loop that stops the run: the run ends with the attempt's events. */
  lemma AttemptStopped(c: AmazonClient, s: Loop, replies: seq<Reply>, grants: seq<Grant>, i: nat, j: nat,
                       a: Step, log: seq<Event>, goal: Trace<seq<Value>>)
    requires i + a.replies <= |replies| && j + a.grants <= |grants| && a.next.Stop?
    requires After(c, Continuing(s), replies[i..], grants[j..])
             == Trace(a.next.outcome, a.events, a.next.last.status, a.next.last.access, a.replies, a.grants)
    requires goal == Pending(c, log, i, j, Continuing(s), replies, grants)
    ensures goal == Trace(a.next.outcome, log + a.events, a.next.last.status, a.next.last.access, i + a.replies, j + a.grants)
  {
  }

  /** One pass of the inner loop that goes on: the run still to come is the attempt's, after its events. */
  lemma AttemptGoes(c: AmazonClient, s: Loop, replies: seq<Reply>, grants: seq<Grant>, i: nat, j: nat,
                    a: Step, log: seq<Event>, goal: Trace<seq<Value>>)
    requires i + a.replies <= |replies| && j + a.grants <= |grants| && a.next.Go?
    requires After(c, Continuing(s), replies[i..], grants[j..])
             == Prefix(a.events, a.replies, a.grants, After(c, a.next.phase, replies[i..][a.replies..], grants[j..][a.grants..]))
    requires goal == Pending(c, log, i, j, Continuing(s), replies, grants)
    ensures goal == Pending(c, log + a.events, i + a.replies, j + a.grants, a.next.phase, replies, grants)
  {
    Advance(replies, i, a.replies);
    Advance(grants, j, a.grants);
    var t := After(c, a.next.phase, replies[i + a.replies..], grants[j + a.grants..]);
    PrefixPrefix(log, i, j, a.events, a.replies, a.grants, t);
  }

  /**
    One pass of the inner loop, as the method takes it: the run still to
    come is the attempt's, after its events; a stop ends it there.
   */
  lemma AttemptStep(c: AmazonClient, s: Loop, replies: seq<Reply>, grants: seq<Grant>, i: nat, j: nat,
                    a: Step, log: seq<Event>, goal: Trace<seq<Value>>)
    requires i + a.replies <= |replies| && j + a.grants <= |grants|
    requires After(c, Continuing(s), replies[i..], grants[j..]) ==
      if a.next.Stop? then Trace(a.next.outcome, a.events, a.next.last.status, a.next.last.access, a.replies, a.grants)
      else Prefix(a.events, a.replies, a.grants, After(c, a.next.phase, replies[i..][a.replies..], grants[j..][a.grants..]))
    requires goal == Pending(c, log, i, j, Continuing(s), replies, grants)
    ensures a.next.Stop? ==> goal == Trace(a.next.outcome, log + a.events, a.next.last.status, a.next.last.access,
                                           i + a.replies, j + a.grants)
    ensures a.next.Go? ==> goal == Pending(c, log + a.events, i + a.replies, j + a.grants, a.next.phase, replies, grants)
  {
    if a.next.Stop? {
      AttemptStopped(c, s, replies, grants, i, j, a, log, goal);
    } else {
      AttemptGoes(c, s, replies, grants, i, j, a, log, goal);
    }
  }

  /** Two stretches of a run logged one after the other are one stretch. */
  lemma PrefixPrefix<T>(log: seq<Event>, i: nat, j: nat, events: seq<Event>, r: nat, g: nat, t: Trace<T>)
    ensures Prefix(log, i, j, Prefix(events, r, g, t)) == Prefix(log + events, i + r, j + g, t)
  {
    assert log + (events + t.log) == log + events + t.log;
  }

  /** The outer test after the inner loop: the run ends with the orders held, or starts afresh with the token. */
  lemma OuterStep(c: AmazonClient, s: Loop, replies: seq<Reply>, grants: seq<Grant>, log: seq<Event>, i: nat, j: nat,
                  goal: Trace<seq<Value>>)
    requires i <= |replies| && j <= |grants|
    requires goal == Pending(c, log, i, j, Outer(s), replies, grants)
    ensures Truthy(s.token) ==> goal == Pending(c, log, i, j, Continuing(s.(retry := 0)), replies, grants)
    ensures !Truthy(s.token) ==> goal == Trace(Done(s.orders), log, s.status, s.access, i, j)
  {
    EnterPage(c, s, replies[i..], grants[j..]);
    assert log + [] == log;
  }

  lemma Advance<T>(xs: seq<T>, i: nat, k: nat)
    requires i + k <= |xs|
    ensures xs[i..][k..] == xs[i + k..]
  {
  }

  // ---------------------------------------------------------------------------
  // What a run of `get_orders` guarantees

  /** The orders a reply adds: the page of a 200 whose body has one. */
  function Appended(reply: Reply): seq<Value> {
    if reply.Response? && reply.status == 200 && Page(reply.body).Ok? then Page(reply.body).value.0 else []
  }

  /** The orders of a stretch of replies, in order. */
  function Bodies(replies: seq<Reply>): seq<Value> {
    if replies == [] then [] else Appended(replies[0]) + Bodies(replies[1..])
  }

  /**
    The run from a phase that goes on, its next attempt `a` unfolded, with
    what `Attempt` promises of `a` and the measure the induction needs.
   */
  lemma Unfolded(c: AmazonClient, p: Phase, replies: seq<Reply>, grants: seq<Grant>) returns (a: Step)
    requires Resume(p).Some?
    ensures a.replies <= 1 && a.replies <= |replies| && a.grants <= |grants|
    ensures a.next.Go? && a.replies + a.grants == 0 ==> Budget(a.next.phase) < Budget(p)
    ensures a.next.Go? ==> a.next.phase.s.orders == p.s.orders + (if a.replies == 1 then Appended(replies[0]) else [])
    ensures a.next.Stop? ==> a.next.outcome.Raised? || a.next.outcome.Exhausted?
    ensures a.next.Stop? && a.next.outcome.Exhausted? ==> a.next.outcome.held == p.s.orders && a.replies == 0
    ensures a.next.Stop? && a.next.outcome.Raised? ==> !a.next.outcome.error.MaxRetries?
    ensures After(c, p, replies, grants) ==
      if a.next.Stop? then Trace(a.next.outcome, a.events, a.next.last.status, a.next.last.access, a.replies, a.grants)
      else Prefix(a.events, a.replies, a.grants, After(c, a.next.phase, replies[a.replies..], grants[a.grants..]))
  {
    var s := Resume(p).value;
    a := Attempt(c, s, replies, grants);
    RunOn(c, s, replies, grants, a);
  }

  lemma BodiesAfter(replies: seq<Reply>, r: nat, k: nat)
    requires r <= 1 && r + k <= |replies|
    ensures Bodies(replies[..r + k]) == (if r == 1 then Appended(replies[0]) else []) + Bodies(replies[r..][..k])
  {
    if r == 1 {
      assert replies[..1 + k][0] == replies[0];
      assert replies[..1 + k][1..] == replies[1..][..k];
    } else {
      assert replies[0..] == replies;
    }
  }

  /**
    Trace `t` returns, or holds when its script runs out, `orders`
    followed by the pages of the replies it read, in order; and it never
    reads past either script.
   */
  predicate Keeps(t: Trace<seq<Value>>, orders: seq<Value>, replies: seq<Reply>, grants: seq<Grant>) {
    && t.replies <= |replies| && t.grants <= |grants|
    && (t.outcome.Done? ==> t.outcome.value == orders + Bodies(replies[..t.replies]))
    && (t.outcome.Exhausted? ==> t.outcome.held == orders + Bodies(replies[..t.replies]))
  }

  /** The orders of the run from `p` are those of `p` and then the pages it read. */
  predicate KeepsOrders(c: AmazonClient, p: Phase, replies: seq<Reply>, grants: seq<Grant>) {
    Keeps(After(c, p, replies, grants), p.s.orders, replies, grants)
  }

  /** A step that read `r` replies and added their page keeps `Keeps` for what follows it. */
  lemma PrefixKeeps(events: seq<Event>, r: nat, g: nat, t: Trace<seq<Value>>, orders: seq<Value>,
                    replies: seq<Reply>, grants: seq<Grant>)
    requires r <= 1 && r <= |replies| && g <= |grants|
    requires Keeps(t, orders + (if r == 1 then Appended(replies[0]) else []), replies[r..], grants[g..])
    ensures Keeps(Prefix(events, r, g, t), orders, replies, grants)
  {
    var added := if r == 1 then Appended(replies[0]) else [];
    var later := Bodies(replies[r..][..t.replies]);
    BodiesAfter(replies, r, t.replies);
    assert orders + added + later == orders + (added + later);
  }

  lemma {:induction false} OrdersAccumulate(c: AmazonClient, p: Phase, replies: seq<Reply>, grants: seq<Grant>)
    ensures KeepsOrders(c, p, replies, grants)
    decreases |replies| + |grants|, Budget(p)
  {
    assert replies[..0] == [];
    if Resume(p).Some? {
      var a := Unfolded(c, p, replies, grants);
      if a.next.Go? {
        OrdersAccumulate(c, a.next.phase, replies[a.replies..], grants[a.grants..]);
        PrefixKeeps(a.events, a.replies, a.grants, After(c, a.next.phase, replies[a.replies..], grants[a.grants..]),
                    p.s.orders, replies, grants);
      }
    }
  }

  /** "Max retries reached" never leaves a run: the `except` clause swallows it. */
  predicate NoMaxRetries(c: AmazonClient, p: Phase, replies: seq<Reply>, grants: seq<Grant>) {
    After(c, p, replies, grants).outcome.Raised? ==> !After(c, p, replies, grants).outcome.error.MaxRetries?
  }

  lemma {:induction false} MaxRetriesNeverEscapes(c: AmazonClient, p: Phase, replies: seq<Reply>, grants: seq<Grant>)
    ensures NoMaxRetries(c, p, replies, grants)
    decreases |replies| + |grants|, Budget(p)
  {
    if Resume(p).Some? {
      var a := Unfolded(c, p, replies, grants);
      if a.next.Go? {
        MaxRetriesNeverEscapes(c, a.next.phase, replies[a.replies..], grants[a.grants..]);
      }
    }
  }

  /** `get_orders` starts its run at the top of the inner loop, nothing logged or read. */
  lemma PendingStart(c: AmazonClient, s: Loop, replies: seq<Reply>, grants: seq<Grant>)
    requires s.retry < 3
    ensures Pending(c, [], 0, 0, Continuing(s), replies, grants) == Run(c, s, replies, grants)
  {
    assert replies[0..] == replies && grants[0..] == grants;
    assert [] + Run(c, s, replies, grants).log == Run(c, s, replies, grants).log;
  }

  /** The request an attempt from `s` sends once the rate limit has run, when it can build one. */
  function Fetch(c: AmazonClient, s: Loop): Event
    requires c.BuildParams(s.token).Ok?
  {
    FetchOrders(s.access, c.BuildParams(s.token).value)
  }

  /** An attempt whose rate limit only pauses and whose request is built reads the first reply. */
  lemma AttemptAnswered(c: AmazonClient, s: Loop, replies: seq<Reply>, grants: seq<Grant>)
    requires replies != [] && RateLimit(s.status, grants).Pause?
    requires OrdersUrl(c.region).Ok? && c.BuildParams(s.token).Ok?
    ensures Attempt(c, s, replies, grants) == Handle(RateLimit(s.status, grants).waits + [Fetch(c, s)], s, replies[0], 0)
  {
  }

  /**
    An attempt whose rate limit only pauses, whose request is built and
    whose reply `i` leads on to phase `a.next.phase`: the run goes on
    from there after the pause, the request and what `Handle` logged.
   */
  lemma AnsweredGoes(c: AmazonClient, s: Loop, log: seq<Event>, i: nat, j: nat, replies: seq<Reply>, grants: seq<Grant>, a: Step)
    requires i < |replies| && j <= |grants| && s.retry < 3 && RateLimit(s.status, grants[j..]).Pause?
    requires OrdersUrl(c.region).Ok? && c.BuildParams(s.token).Ok?
    requires a == Handle(RateLimit(s.status, grants[j..]).waits + [Fetch(c, s)], s, replies[i], 0) && a.next.Go?
    ensures Pending(c, log, i, j, Continuing(s), replies, grants)
            == Pending(c, log + a.events, i + 1, j, a.next.phase, replies, grants)
  {
    var b := Attempt(c, s, replies[i..], grants[j..]);
    AttemptAnswered(c, s, replies[i..], grants[j..]);
    assert replies[i..][0] == replies[i];
    RunOn(c, s, replies[i..], grants[j..], b);
    AttemptGoes(c, s, replies, grants, i, j, b, log, Pending(c, log, i, j, Continuing(s), replies, grants));
  }

  /** A 200 whose page reads: the orders are added, the token moves on, and the outer test follows. */
  lemma PageHandled(events: seq<Event>, s: Loop, reply: Reply, g: nat)
    requires reply.Response? && reply.status == 200 && Page(reply.body).Ok?
    ensures var page := Page(reply.body).value;
      Handle(events, s, reply, g) == Step(events, Go(Outer(s.(status := 200, orders := s.orders + page.0, token := page.1))), 1, g)
  {
  }

  /**
    A 200 with a page: its orders are added and the token moves on; a
    falsy `NextToken` ends the run with the orders, any other starts the
    next page with a fresh budget.
   */
  lemma PageAnswered(c: AmazonClient, s: Loop, log: seq<Event>, i: nat, j: nat, replies: seq<Reply>, grants: seq<Grant>)
    requires i < |replies| && j <= |grants| && s.retry < 3 && RateLimit(s.status, grants[j..]).Pause?
    requires OrdersUrl(c.region).Ok? && c.BuildParams(s.token).Ok?
    requires replies[i].Response? && replies[i].status == 200 && Page(replies[i].body).Ok?
    ensures var page := Page(replies[i].body).value;
      var log' := log + RateLimit(s.status, grants[j..]).waits + [Fetch(c, s)];
      Pending(c, log, i, j, Continuing(s), replies, grants)
      == if Truthy(page.1) then Pending(c, log', i + 1, j, Continuing(Loop(page.1, 0, 200, s.access, s.orders + page.0)), replies, grants)
         else Trace(Done(s.orders + page.0), log', 200, s.access, i + 1, j)
  {
    var page := Page(replies[i].body).value;
    var log' := log + RateLimit(s.status, grants[j..]).waits + [Fetch(c, s)];
    var s' := s.(status := 200, orders := s.orders + page.0, token := page.1);
    assert Pending(c, log, i, j, Continuing(s), replies, grants) == Pending(c, log', i + 1, j, Outer(s'), replies, grants) by {
      var events := RateLimit(s.status, grants[j..]).waits + [Fetch(c, s)];
      PageHandled(events, s, replies[i], 0);
      AnsweredGoes(c, s, log, i, j, replies, grants, Step(events, Go(Outer(s')), 1, 0));
      assert log + events == log';
    }
    OuterStep(c, s', replies, grants, log', i + 1, j, Pending(c, log, i, j, Continuing(s), replies, grants));
  }

  /**
    A transient status is counted; the third raises "Max retries reached",
    which the `except` clause counts again and follows with a pause of 20
    seconds.
   */
  lemma TransientHandled(events: seq<Event>, s: Loop, reply: Reply, g: nat)
    requires reply.Response? && Transient(reply.status) && s.retry < 3
    ensures s.retry < 2 ==>
      Handle(events, s, reply, g) == Step(events, Go(Continuing(s.(status := reply.status, retry := s.retry + 1))), 1, g)
    ensures s.retry == 2 ==>
      Handle(events, s, reply, g) == Step(events + [Wait(20)], Go(Continuing(s.(status := reply.status, retry := 4))), 1, g)
  {
  }

  /** A transient status before the third: counted, and the next attempt follows with no pause of its own. */
  lemma TransientRetried(c: AmazonClient, s: Loop, log: seq<Event>, i: nat, j: nat, replies: seq<Reply>, grants: seq<Grant>)
    requires i < |replies| && j <= |grants| && s.retry < 2 && RateLimit(s.status, grants[j..]).Pause?
    requires OrdersUrl(c.region).Ok? && c.BuildParams(s.token).Ok?
    requires replies[i].Response? && Transient(replies[i].status)
    ensures Pending(c, log, i, j, Continuing(s), replies, grants)
         == Pending(c, log + RateLimit(s.status, grants[j..]).waits + [Fetch(c, s)], i + 1, j,
                    Continuing(s.(status := replies[i].status, retry := s.retry + 1)), replies, grants)
  {
    var events := RateLimit(s.status, grants[j..]).waits + [Fetch(c, s)];
    TransientHandled(events, s, replies[i], 0);
    AnsweredGoes(c, s, log, i, j, replies, grants,
                 Step(events, Go(Continuing(s.(status := replies[i].status, retry := s.retry + 1))), 1, 0));
    assert log + events == log + RateLimit(s.status, grants[j..]).waits + [Fetch(c, s)];
  }

  /**
    The third transient status in a row: "Max retries reached" is raised
    and caught, counted a fourth time and paused 20 seconds; the inner
    loop then ends, and the outer test starts the same token afresh or,
    with no token, returns the orders held.
   */
  lemma TransientSwallowed(c: AmazonClient, s: Loop, log: seq<Event>, i: nat, j: nat, replies: seq<Reply>, grants: seq<Grant>)
    requires i < |replies| && j <= |grants| && s.retry == 2 && RateLimit(s.status, grants[j..]).Pause?
    requires OrdersUrl(c.region).Ok? && c.BuildParams(s.token).Ok?
    requires replies[i].Response? && Transient(replies[i].status)
    ensures var log' := log + RateLimit(s.status, grants[j..]).waits + [Fetch(c, s), Wait(20)];
      Pending(c, log, i, j, Continuing(s), replies, grants)
      == if Truthy(s.token) then Pending(c, log', i + 1, j, Continuing(s.(status := replies[i].status, retry := 0)), replies, grants)
         else Trace(Done(s.orders), log', replies[i].status, s.access, i + 1, j)
  {
    var events := RateLimit(s.status, grants[j..]).waits + [Fetch(c, s)];
    var s4 := s.(status := replies[i].status, retry := 4);
    var log' := log + RateLimit(s.status, grants[j..]).waits + [Fetch(c, s), Wait(20)];
    assert Pending(c, log, i, j, Continuing(s), replies, grants) == Pending(c, log', i + 1, j, Continuing(s4), replies, grants) by {
      TransientHandled(events, s, replies[i], 0);
      AnsweredGoes(c, s, log, i, j, replies, grants, Step(events + [Wait(20)], Go(Continuing(s4)), 1, 0));
      assert log + (events + [Wait(20)]) == log';
    }
    assert Pending(c, log', i + 1, j, Continuing(s4), replies, grants) == Pending(c, log', i + 1, j, Outer(s4), replies, grants) by {
      EnterPage(c, s4, replies[i + 1..], grants[j..]);
    }
    OuterStep(c, s4, replies, grants, log', i + 1, j, Pending(c, log, i, j, Continuing(s), replies, grants));
  }

  /**
    Three transient statuses other than 403 on one token, from a fresh
    budget: after the third the first page (no token) returns the orders
    held so far, and a later page starts again with the same token.
   */
  lemma ThirdTransientSwallowed(c: AmazonClient, s: Loop, replies: seq<Reply>, grants: seq<Grant>)
    requires |replies| >= 3 && s.retry == 0 && s.status != 403
    requires OrdersUrl(c.region).Ok? && c.BuildParams(s.token).Ok?
    requires forall k :: 0 <= k < 3 ==> replies[k].Response? && Transient(replies[k].status)
    requires replies[0].status != 403 && replies[1].status != 403
    ensures var log := RateLimit(s.status, grants).waits + [Fetch(c, s)] + RateLimit(replies[0].status, grants).waits + [Fetch(c, s)]
                       + RateLimit(replies[1].status, grants).waits + [Fetch(c, s), Wait(20)];
      Run(c, s, replies, grants)
      == if Truthy(s.token) then Pending(c, log, 3, 0, Continuing(s.(status := replies[2].status)), replies, grants)
         else Trace(Done(s.orders), log, replies[2].status, s.access, 3, 0)
  {
    assert grants[0..] == grants;
    PendingStart(c, s, replies, grants);
    var s1 := s.(status := replies[0].status, retry := 1);
    var s2 := s1.(status := replies[1].status, retry := 2);
    var e0 := RateLimit(s.status, grants).waits + [Fetch(c, s)];
    TransientRetried(c, s, [], 0, 0, replies, grants);
    assert [] + e0 == e0;
    TransientRetried(c, s1, e0, 1, 0, replies, grants);
    var e1 := e0 + RateLimit(replies[0].status, grants).waits + [Fetch(c, s1)];
    TransientSwallowed(c, s2, e1, 2, 0, replies, grants);
    assert Fetch(c, s1) == Fetch(c, s) && Fetch(c, s2) == Fetch(c, s);
    assert s2.(status := replies[2].status, retry := 0) == s.(status := replies[2].status);
  }

  /**
    After a 403 the next attempt first asks the token endpoint, and a
    granted token is the one its request carries and the client keeps.
   */
  lemma RefreshedTokenSent(c: AmazonClient, s: Loop, token: string, replies: seq<Reply>, grants: seq<Grant>)
    requires s.status == 403
    requires OrdersUrl(c.region).Ok? && c.BuildParams(s.token).Ok?
    ensures var a := Attempt(c, s, replies, [Granted(token)] + grants);
      && |a.events| >= 2 && a.events[..2] == [Refresh, FetchOrders(token, c.BuildParams(s.token).value)]
      && a.grants == 1 && a.State().access == token
  {
    assert ([Granted(token)] + grants)[0] == Granted(token);
  }

  /** Why the orders request of `c` cannot be built from `s`, when it cannot. */
  function BuildError(c: AmazonClient, s: Loop): Exception
    requires OrdersUrl(c.region).Err? || c.BuildParams(s.token).Err?
  {
    if OrdersUrl(c.region).Err? then OrdersUrl(c.region).error else c.BuildParams(s.token).error
  }

  /** An attempt whose rate limit does nothing and whose request cannot be built goes straight to the `except` clause. */
  lemma Unbuildable(c: AmazonClient, s: Loop, replies: seq<Reply>, grants: seq<Grant>)
    requires s.retry < 3 && RateLimit(s.status, grants) == Pause([])
    requires OrdersUrl(c.region).Err? || c.BuildParams(s.token).Err?
    ensures Attempt(c, s, replies, grants) == Caught([], s, BuildError(c, s), 0, 0)
  {
  }

  /** Such an attempt before the third: the failure is counted and paused on, and nothing is read. */
  lemma UnbuildableRetried(c: AmazonClient, s: Loop, log: seq<Event>, i: nat, j: nat, replies: seq<Reply>, grants: seq<Grant>)
    requires i <= |replies| && j <= |grants| && s.retry < 2 && RateLimit(s.status, grants[j..]) == Pause([])
    requires OrdersUrl(c.region).Err? || c.BuildParams(s.token).Err?
    ensures Pending(c, log, i, j, Continuing(s), replies, grants)
            == Pending(c, log + [Wait(5 * (s.retry + 1))], i, j, Continuing(s.(retry := s.retry + 1)), replies, grants)
  {
    var a := Attempt(c, s, replies[i..], grants[j..]);
    Unbuildable(c, s, replies[i..], grants[j..]);
    assert a == Step([Wait(5 * (s.retry + 1))], Go(Continuing(s.(retry := s.retry + 1))), 0, 0);
    RunOn(c, s, replies[i..], grants[j..], a);
    AttemptGoes(c, s, replies, grants, i, j, a, log, Pending(c, log, i, j, Continuing(s), replies, grants));
  }

  /** Such an attempt as the third: the failure is raised. */
  lemma UnbuildableRaised(c: AmazonClient, s: Loop, log: seq<Event>, i: nat, j: nat, replies: seq<Reply>, grants: seq<Grant>)
    requires i <= |replies| && j <= |grants| && s.retry == 2 && RateLimit(s.status, grants[j..]) == Pause([])
    requires OrdersUrl(c.region).Err? || c.BuildParams(s.token).Err?
    ensures Pending(c, log, i, j, Continuing(s), replies, grants)
            == Trace(Raised(BuildError(c, s)), log, s.status, s.access, i, j)
  {
    var a := Attempt(c, s, replies[i..], grants[j..]);
    Unbuildable(c, s, replies[i..], grants[j..]);
    RunOn(c, s, replies[i..], grants[j..], a);
    AttemptStopped(c, s, replies, grants, i, j, a, log, Pending(c, log, i, j, Continuing(s), replies, grants));
    assert log + [] == log;
  }

  /**
    A request that cannot be built (an unknown region, or the date of the
    fill type missing) fails before anything is sent: the third failure is
    raised after pauses of 5 and 10 seconds, reading neither script.
   */
  lemma PreRequestFailure(c: AmazonClient, s: Loop, log: seq<Event>, i: nat, j: nat, replies: seq<Reply>, grants: seq<Grant>)
    requires i <= |replies| && j <= |grants| && s.retry == 0 && RateLimit(s.status, grants[j..]) == Pause([])
    requires OrdersUrl(c.region).Err? || c.BuildParams(s.token).Err?
    ensures Pending(c, log, i, j, Continuing(s), replies, grants)
            == Trace(Raised(BuildError(c, s)), log + [Wait(5), Wait(10)], s.status, s.access, i, j)
  {
    var s1 := s.(retry := 1);
    var s2 := s.(retry := 2);
    calc {
      Pending(c, log, i, j, Continuing(s), replies, grants);
    == { UnbuildableRetried(c, s, log, i, j, replies, grants); }
      Pending(c, log + [Wait(5)], i, j, Continuing(s1), replies, grants);
    == { UnbuildableRetried(c, s1, log + [Wait(5)], i, j, replies, grants); }
      Pending(c, log + [Wait(5)] + [Wait(10)], i, j, Continuing(s2), replies, grants);
    == { UnbuildableRaised(c, s2, log + [Wait(5)] + [Wait(10)], i, j, replies, grants); }
      Trace(Raised(BuildError(c, s2)), log + [Wait(5)] + [Wait(10)], s.status, s.access, i, j);
    == { assert log + [Wait(5)] + [Wait(10)] == log + [Wait(5), Wait(10)]; }
      Trace(Raised(BuildError(c, s)), log + [Wait(5), Wait(10)], s.status, s.access, i, j);
    }
  }

  // ---------------------------------------------------------------------------
  // `get_sales` as a function of the scripts

  /** The loop variables of `get_sales`: `retry_count`, `current_status_code`, `access_token`. */
  datatype Sales = Sales(retry: nat, status: int, access: string)

  /** One attempt of `get_sales`: what it logged, how it ends the run if it does, the state after it, the replies and grants it used. */
  datatype SalesStep = SalesStep(events: seq<Event>, stop: Option<Outcome<Option<Value>>>, after: Sales, replies: nat, grants: nat)

  /** The `except` clause of `get_sales`: count the failure, re-raise on the third, otherwise pause 5 × count. */
  function SalesCaught(events: seq<Event>, s: Sales, e: Exception, r: nat, g: nat): (a: SalesStep)
    ensures a.replies == r && a.grants == g && a.after == s.(retry := s.retry + 1)
    ensures a.stop.Some? <==> s.retry + 1 == 3
    ensures a.stop.Some? ==> a.stop.value == Raised(e)
  {
    var retry := s.retry + 1;
    if retry == 3 then SalesStep(events, Some(Raised(e)), s.(retry := retry), r, g)
    else SalesStep(events + [Wait(5 * retry)], None, s.(retry := retry), r, g)
  }

  /**
    One attempt of `get_sales` on `today`: the rate limit for the previous
    status, the endpoint and the interval, then the request; a 200 returns
    the decoded body.
   */
  function SalesAttempt(c: AmazonClient, today: Moment, s: Sales, replies: seq<Reply>, grants: seq<Grant>): (a: SalesStep)
    requires s.retry < 3
    ensures a.replies <= 1 && a.replies <= |replies| && a.grants <= |grants|
    ensures a.stop.None? && a.replies + a.grants == 0 ==> a.after.retry == s.retry + 1 < 3
    ensures a.stop.None? ==> a.after.retry > s.retry
    ensures a.stop.Some? && a.stop.value.Done? ==>
      a.replies == 1 && replies[0].Response? && replies[0].status == 200 && a.stop.value.value == Some(replies[0].body)
    ensures a.stop.Some? && a.stop.value.Raised? ==> !a.stop.value.error.MaxRetries?
  {
    var l := RateLimit(s.status, grants);
    var events := LimitEvents(l);
    var g := LimitGrants(l);
    if l.NoGrant? then SalesStep(events, Some(Exhausted(None)), s, 0, 0)
    else
      var s' := if l.Refreshed? then s.(access := l.token) else s;
      if l.RefreshFailed? then SalesCaught(events, s', TokenRefreshFailed, 0, g)
      else if SalesUrl(c.region).Err? then SalesCaught(events, s', SalesUrl(c.region).error, 0, g)
      else if c.BuildSalesParams(today).Err? then SalesCaught(events, s', c.BuildSalesParams(today).error, 0, g)
      else
        var events' := events + [FetchSales(s'.access, c.BuildSalesParams(today).value)];
        if replies == [] then SalesStep(events', Some(Exhausted(None)), s', 0, g)
        else match replies[0]
          case Failure => SalesCaught(events', s', RequestFailed, 1, g)
          case Response(status, body) =>
            var s'' := s'.(status := status);
            if status == 200 then SalesStep(events', Some(Done(Some(body))), s'', 1, g)
            else if Transient(status) then
              if s.retry + 1 == 3 then SalesCaught(events', s''.(retry := 3), MaxRetries(status), 1, g)
              else SalesStep(events', None, s''.(retry := s.retry + 1), 1, g)
            else SalesCaught(events', s'', UnexpectedStatus(status), 1, g)
  }

  /** The run of `get_sales` from an attempt in state `s`. */
  function SalesRun(c: AmazonClient, today: Moment, s: Sales, replies: seq<Reply>, grants: seq<Grant>): Trace<Option<Value>>
    requires s.retry < 3
    decreases |replies| + |grants|, 3 - s.retry, 0
  {
    var a := SalesAttempt(c, today, s, replies, grants);
    if a.stop.Some? then Trace(a.stop.value, a.events, a.after.status, a.after.access, a.replies, a.grants)
    else Prefix(a.events, a.replies, a.grants, SalesFrom(c, today, a.after, replies[a.replies..], grants[a.grants..]))
  }

  /** The run of `get_sales` from its loop test: a spent budget ends it with None. */
  function SalesFrom(c: AmazonClient, today: Moment, s: Sales, replies: seq<Reply>, grants: seq<Grant>): Trace<Option<Value>>
    decreases |replies| + |grants|, if s.retry < 3 then 3 - s.retry else 0, 1
  {
    if s.retry >= 3 then Trace(Done(None), [], s.status, s.access, 0, 0)
    else SalesRun(c, today, s, replies, grants)
  }

  /** The whole run of `get_sales` as its loop sees it. */
  function SalesPending(c: AmazonClient, today: Moment, log: seq<Event>, i: nat, j: nat, s: Sales,
                        replies: seq<Reply>, grants: seq<Grant>): Trace<Option<Value>>
    requires i <= |replies| && j <= |grants|
  {
    Prefix(log, i, j, SalesFrom(c, today, s, replies[i..], grants[j..]))
  }

  /** The run from the loop test with budget left, its first attempt `a` unfolded. */
  lemma SalesOn(c: AmazonClient, today: Moment, s: Sales, replies: seq<Reply>, grants: seq<Grant>, a: SalesStep)
    requires s.retry < 3 && a == SalesAttempt(c, today, s, replies, grants)
    ensures SalesFrom(c, today, s, replies, grants) ==
      if a.stop.Some? then Trace(a.stop.value, a.events, a.after.status, a.after.access, a.replies, a.grants)
      else Prefix(a.events, a.replies, a.grants, SalesFrom(c, today, a.after, replies[a.replies..], grants[a.grants..]))
  {
  }

  /** One pass of the `get_sales` loop that ends the run with the attempt's events. */
  lemma SalesStopped(c: AmazonClient, today: Moment, s: Sales, replies: seq<Reply>, grants: seq<Grant>, i: nat, j: nat,
                     a: SalesStep, log: seq<Event>, goal: Trace<Option<Value>>)
    requires i + a.replies <= |replies| && j + a.grants <= |grants| && a.stop.Some?
    requires SalesFrom(c, today, s, replies[i..], grants[j..])
             == Trace(a.stop.value, a.events, a.after.status, a.after.access, a.replies, a.grants)
    requires goal == SalesPending(c, today, log, i, j, s, replies, grants)
    ensures goal == Trace(a.stop.value, log + a.events, a.after.status, a.after.access, i + a.replies, j + a.grants)
  {
  }

  /** One pass of the `get_sales` loop that goes on: the run still to come starts from the state after it. */
  lemma SalesGoes(c: AmazonClient, today: Moment, s: Sales, replies: seq<Reply>, grants: seq<Grant>, i: nat, j: nat,
                  a: SalesStep, log: seq<Event>, goal: Trace<Option<Value>>)
    requires i + a.replies <= |replies| && j + a.grants <= |grants| && a.stop.None?
    requires SalesFrom(c, today, s, replies[i..], grants[j..])
             == Prefix(a.events, a.replies, a.grants, SalesFrom(c, today, a.after, replies[i..][a.replies..], grants[j..][a.grants..]))
    requires goal == SalesPending(c, today, log, i, j, s, replies, grants)
    ensures goal == SalesPending(c, today, log + a.events, i + a.replies, j + a.grants, a.after, replies, grants)
  {
    Advance(replies, i, a.replies);
    Advance(grants, j, a.grants);
    var t := SalesFrom(c, today, a.after, replies[i + a.replies..], grants[j + a.grants..]);
    PrefixPrefix(log, i, j, a.events, a.replies, a.grants, t);
  }

  /** The loop test fails: `get_sales` falls off its end and returns None. */
  lemma SalesEnd(c: AmazonClient, today: Moment, s: Sales, replies: seq<Reply>, grants: seq<Grant>,
                 log: seq<Event>, i: nat, j: nat, goal: Trace<Option<Value>>)
    requires i <= |replies| && j <= |grants| && s.retry >= 3
    requires goal == SalesPending(c, today, log, i, j, s, replies, grants)
    ensures goal == Trace(Done(None), log, s.status, s.access, i, j)
  {
    assert log + [] == log;
  }

  // ---------------------------------------------------------------------------
  // What a run of `get_sales` guarantees

  /**
    The run from the loop test with budget left, its first attempt `a`
    unfolded, with what `SalesAttempt` promises of `a`.
   */
  lemma SalesUnfolded(c: AmazonClient, today: Moment, s: Sales, replies: seq<Reply>, grants: seq<Grant>)
    returns (a: SalesStep)
    requires s.retry < 3
    ensures a.replies <= 1 && a.replies <= |replies| && a.grants <= |grants|
    ensures a.stop.None? && a.replies + a.grants == 0 ==> a.after.retry == s.retry + 1 < 3
    ensures a.stop.None? ==> a.after.retry > s.retry
    ensures a.stop.Some? && a.stop.value.Done? ==>
      a.replies == 1 && replies[0].Response? && replies[0].status == 200 && a.stop.value.value == Some(replies[0].body)
    ensures a.stop.Some? && a.stop.value.Raised? ==> !a.stop.value.error.MaxRetries?
    ensures SalesFrom(c, today, s, replies, grants) ==
      if a.stop.Some? then Trace(a.stop.value, a.events, a.after.status, a.after.access, a.replies, a.grants)
      else Prefix(a.events, a.replies, a.grants, SalesFrom(c, today, a.after, replies[a.replies..], grants[a.grants..]))
  {
    a := SalesAttempt(c, today, s, replies, grants);
    SalesOn(c, today, s, replies, grants, a);
  }

  /**
    What trace `t` of `get_sales` returns: a body only as the last reply it
    read, a 200 carrying that body; "Max retries reached" never; and no
    more replies or grants than the scripts hold.
   */
  predicate SalesAnswer(t: Trace<Option<Value>>, replies: seq<Reply>, grants: seq<Grant>) {
    && t.replies <= |replies| && t.grants <= |grants|
    && (t.outcome.Done? && t.outcome.value.Some? ==>
          t.replies >= 1 && replies[t.replies - 1] == Response(200, t.outcome.value.value))
    && (t.outcome.Raised? ==> !t.outcome.error.MaxRetries?)
  }

  /** A pass that read `r` replies keeps `SalesAnswer` for what follows it. */
  lemma PrefixAnswers(events: seq<Event>, r: nat, g: nat, t: Trace<Option<Value>>, replies: seq<Reply>, grants: seq<Grant>)
    requires r <= |replies| && g <= |grants|
    requires SalesAnswer(t, replies[r..], grants[g..])
    ensures SalesAnswer(Prefix(events, r, g, t), replies, grants)
  {
    if t.outcome.Done? && t.outcome.value.Some? {
      assert replies[r..][t.replies - 1] == replies[r + t.replies - 1];
    }
  }

  /**
    `get_sales` returns the body of the 200 reply that ended it, or None;
    the exhaustion it raises on a third transient status never leaves it.
   */
  lemma {:induction false} SalesReturnsBody(c: AmazonClient, today: Moment, s: Sales, replies: seq<Reply>, grants: seq<Grant>)
    ensures SalesAnswer(SalesFrom(c, today, s, replies, grants), replies, grants)
    decreases |replies| + |grants|, if s.retry < 3 then 3 - s.retry else 0
  {
    if s.retry < 3 {
      var a := SalesUnfolded(c, today, s, replies, grants);
      if a.stop.None? {
        var t := SalesFrom(c, today, a.after, replies[a.replies..], grants[a.grants..]);
        SalesReturnsBody(c, today, a.after, replies[a.replies..], grants[a.grants..]);
        PrefixAnswers(a.events, a.replies, a.grants, t, replies, grants);
      }
    }
  }

  /**
    A transient status other than 403 after one that did not ask for a
    refresh is counted; the third raises "Max retries reached", which the
    `except` clause counts again and follows with a pause of 20 seconds.
   */
  lemma SalesTransient(c: AmazonClient, today: Moment, s: Sales, replies: seq<Reply>, grants: seq<Grant>)
    requires s.retry < 3 && s.status != 403 && replies != [] && replies[0].Response? && Transient(replies[0].status)
    requires SalesUrl(c.region).Ok? && c.BuildSalesParams(today).Ok?
    ensures var events := RateLimit(s.status, grants).waits + [FetchSales(s.access, c.BuildSalesParams(today).value)];
      var s' := s.(status := replies[0].status);
      SalesAttempt(c, today, s, replies, grants)
      == if s.retry < 2 then SalesStep(events, None, s'.(retry := s.retry + 1), 1, 0)
         else SalesStep(events + [Wait(20)], None, s'.(retry := 4), 1, 0)
  {
  }

  /**
    Three transient statuses other than 403 in a row, from a fresh budget
    and a status that asks for no refresh: `get_sales` swallows the
    exhaustion and returns None, having read exactly those three replies
    and no grant.
   */
  lemma SalesSwallowed(c: AmazonClient, today: Moment, s: Sales, replies: seq<Reply>, grants: seq<Grant>)
    requires s.retry == 0 && s.status != 403 && |replies| >= 3
    requires forall k :: 0 <= k < 3 ==> replies[k].Response? && Transient(replies[k].status) && replies[k].status != 403
    requires SalesUrl(c.region).Ok? && c.BuildSalesParams(today).Ok?
    ensures var t := SalesFrom(c, today, s, replies, grants);
      t.outcome == Done(None) && t.replies == 3 && t.grants == 0 && t.status == replies[2].status
  {
    var s1 := s.(status := replies[0].status, retry := 1);
    var s2 := s1.(status := replies[1].status, retry := 2);
    var s3 := s2.(status := replies[2].status, retry := 4);
    var t1 := SalesFrom(c, today, s1, replies[1..], grants);
    var t2 := SalesFrom(c, today, s2, replies[1..][1..], grants);
    var t3 := SalesFrom(c, today, s3, replies[1..][1..][1..], grants);
    assert t3.outcome == Done(None) && t3.replies == 0 && t3.grants == 0 && t3.status == replies[2].status by {
      SalesSpent(c, today, s3, replies[1..][1..][1..], grants);
    }
    assert t2.outcome == Done(None) && t2.replies == 1 && t2.grants == 0 && t2.status == replies[2].status by {
      SalesTransientFrom(c, today, s2, replies[1..][1..], grants);
    }
    assert t1.outcome == Done(None) && t1.replies == 2 && t1.grants == 0 && t1.status == replies[2].status by {
      SalesTransientFrom(c, today, s1, replies[1..], grants);
    }
    SalesTransientFrom(c, today, s, replies, grants);
  }

  /** Once the retry counter has passed its limit the run stops at once with nothing read. */
  lemma SalesSpent(c: AmazonClient, today: Moment, s: Sales, replies: seq<Reply>, grants: seq<Grant>)
    requires s.retry > 3
    ensures var t := SalesFrom(c, today, s, replies, grants);
      t.outcome == Done(None) && t.replies == 0 && t.grants == 0 && t.status == s.status
  {
  }

  /** The run after a transient status read by the first attempt is the run from the counted state, one reply on. */
  lemma SalesTransientFrom(c: AmazonClient, today: Moment, s: Sales, replies: seq<Reply>, grants: seq<Grant>)
    requires s.retry < 3 && s.status != 403 && replies != [] && replies[0].Response? && Transient(replies[0].status)
    requires SalesUrl(c.region).Ok? && c.BuildSalesParams(today).Ok?
    ensures var t := SalesFrom(c, today, s, replies, grants);
      var t' := SalesFrom(c, today, s.(status := replies[0].status, retry := if s.retry < 2 then s.retry + 1 else 4), replies[1..], grants);
      t.outcome == t'.outcome && t.replies == 1 + t'.replies && t.grants == t'.grants && t.status == t'.status
  {
    SalesTransient(c, today, s, replies, grants);
    var a := SalesUnfolded(c, today, s, replies, grants);
    assert grants[0..] == grants;
  }

  /**
    `__init__`: the token endpoint's answer decides whether a client is
    made; a refused refresh raises before any field is used.
   */
  method NewClient(request: OrderRequest, grant: Grant) returns (r: Result<AmazonClient>)
    ensures grant.Refused? ==> r == Err(TokenRefreshFailed)
    ensures grant.Granted? ==> r.Ok? && fresh(r.value)
    ensures grant.Granted? ==> r.value.accessToken == grant.token && r.value.currentStatusCode == 0
    ensures grant.Granted? ==> r.value.region == request.region && r.value.fillType == request.fillType
    ensures grant.Granted? ==> r.value.marketplaceIds == MarketplaceId(request.region)
    ensures grant.Granted? ==> r.value.createdAfter == request.createdAfter && r.value.lastUpdatedAfter == request.lastUpdatedAfter
    ensures grant.Granted? ==> r.value.maxResultsPerPage == request.maxResultsPerPage
  {
    if grant.Refused? {
      return Err(TokenRefreshFailed);
    }
    var client := new AmazonClient(request, grant.token);
    r := Ok(client);
  }
}
