/**
  The Shopify GraphQL client: the order filter it builds at construction,
  the rendering of its date bounds, the pause chosen by the credits the
  previous page reported, and the recursive page fetch of `get_orders`.

  The HTTP layer is a script: one `Reply` per `requests.post`, in the order
  the requests are made. Pauses and requests are written to a log of
  `Event`s. When the script runs out the run ends as `Exhausted`.
 */
module ShopifyExtraction {
  import opened Wrappers
  import opened Literals
  import opened DateTimes
  import opened Values

  const ApiVersion: string := "2025-01"

  /** The number of orders each page asks for. */
  const PageSize: int := 250

  /** The credits below which the next request waits. */
  const CreditFloor: int := 250

  /** The client: nothing in it changes after `__init__`. */
  datatype ShopifyClient = ShopifyClient(baseUrl: string, accessToken: string, filterQuery: string)

  // ---------------------------------------------------------------------------
  // Date bounds and filters

  /** The clock `_format_datetime` renders: an end bound given as a bare date becomes 23:59:59 that day. */
  function Bound(dt: Moment, isEnd: bool): (r: Moment)
    ensures r.year == dt.year && r.month == dt.month && r.day == dt.day
    ensures !isEnd ==> r == dt
  {
    if isEnd && dt.hour == 0 && dt.minute == 0 && dt.second == 0 && dt.micro == 0
    then dt.(hour := 23, minute := 59, second := 59)
    else dt
  }

  /**
    `_format_datetime`: `strftime('%Y-%m-%dT%H:%M:%S')` with its last three
    characters cut off, then 'Z': the seconds are dropped.
   */
  function FormatDatetime(dt: Moment, isEnd: bool): (r: string)
    ensures |r| == 17 && r[10] == 'T' && r[16] == 'Z'
  {
    var b := Bound(dt, isEnd);
    DateText(b) + "T" + Pad(b.hour, 2) + ":" + Pad(b.minute, 2) + "Z"
  }

  /** `_format_datetime` is the 19-character `%Y-%m-%dT%H:%M:%S` rendering with `[:-3]` applied and 'Z' added. */
  lemma FormatCutsSeconds(dt: Moment, isEnd: bool)
    ensures var b := Bound(dt, isEnd);
      var full := DateText(b) + "T" + ClockText(b);
      |full| == 19 && FormatDatetime(dt, isEnd) == full[..|full| - 3] + "Z"
  {
    var b := Bound(dt, isEnd);
    var full := DateText(b) + "T" + ClockText(b);
    assert full[..16] == DateText(b) + "T" + Pad(b.hour, 2) + ":" + Pad(b.minute, 2);
  }

  /** A bare date as the end bound covers its whole day up to 23:59. */
  lemma EndOfDay(dt: Moment)
    requires dt.hour == 0 && dt.minute == 0 && dt.second == 0 && dt.micro == 0
    ensures FormatDatetime(dt, true) == DateText(dt) + "T23:59Z"
    ensures FormatDatetime(dt, false) == DateText(dt) + "T00:00Z"
  {
    assert Pad(2, 1) == Pad(0, 0) + [DigitChar(2)];
    assert Pad(23, 2) == Pad(2, 1) + [DigitChar(3)];
    assert Pad(5, 1) == Pad(0, 0) + [DigitChar(5)];
    assert Pad(59, 2) == Pad(5, 1) + [DigitChar(9)];
    assert Pad(0, 2) == Pad(0, 1) + [DigitChar(0)];
  }

  /**
    The text of a bound determines its date, hour and minute, and nothing
    finer: two bounds in the same minute render alike.
   */
  lemma FormatKeepsMinute(a: Moment, b: Moment, isEnd: bool)
    ensures FormatDatetime(a, isEnd) == FormatDatetime(b, isEnd) <==>
      var x, y := Bound(a, isEnd), Bound(b, isEnd);
      x.year == y.year && x.month == y.month && x.day == y.day && x.hour == y.hour && x.minute == y.minute
  {
    var x, y := Bound(a, isEnd), Bound(b, isEnd);
    var s, t := FormatDatetime(a, isEnd), FormatDatetime(b, isEnd);
    if s == t {
      assert s[..4] == Pad(x.year, 4) && t[..4] == Pad(y.year, 4);
      assert s[5..7] == Pad(x.month, 2) && t[5..7] == Pad(y.month, 2);
      assert s[8..10] == Pad(x.day, 2) && t[8..10] == Pad(y.day, 2);
      assert s[11..13] == Pad(x.hour, 2) && t[11..13] == Pad(y.hour, 2);
      assert s[14..16] == Pad(x.minute, 2) && t[14..16] == Pad(y.minute, 2);
      PadInjective(x.year, y.year, 4);
      PadInjective(x.month, y.month, 2);
      PadInjective(x.day, y.day, 2);
      PadInjective(x.hour, y.hour, 2);
      PadInjective(x.minute, y.minute, 2);
    }
  }

  /** The characters of a rendered bound: digits, '-', 'T', ':' and 'Z'. */
  predicate BoundChar(ch: char) {
    IsDigit(ch) || ch == '-' || ch == 'T' || ch == ':' || ch == 'Z'
  }

  lemma FormatChars(dt: Moment, isEnd: bool)
    ensures forall k :: 0 <= k < 17 ==> BoundChar(FormatDatetime(dt, isEnd)[k])
  {
    var b := Bound(dt, isEnd);
    var r := FormatDatetime(dt, isEnd);
    forall k | 0 <= k < 17
      ensures BoundChar(r[k])
    {
      if k < 4 { assert r[k] == Pad(b.year, 4)[k]; }
      else if 5 <= k < 7 { assert r[k] == Pad(b.month, 2)[k - 5]; }
      else if 8 <= k < 10 { assert r[k] == Pad(b.day, 2)[k - 8]; }
      else if 11 <= k < 13 { assert r[k] == Pad(b.hour, 2)[k - 11]; }
      else if 14 <= k < 16 { assert r[k] == Pad(b.minute, 2)[k - 14]; }
    }
  }

  /** `_build_date_query_backfill`: orders created from the start, and up to the end when one is given. */
  function BackfillFilter(start: Moment, end: Option<Moment>): string {
    var lower := "created_at:>='" + FormatDatetime(start, false) + "'";
    if end.None? then lower
    else "(" + lower + " AND created_at:<='" + FormatDatetime(end.value, true) + "')"
  }

  /** `_build_date_query_new_fetch`: orders created or updated from the start, and up to the end when one is given. */
  function IncrementalFilter(start: Moment, end: Option<Moment>): string {
    var s := FormatDatetime(start, false);
    var lower := "(created_at:>='" + s + "' OR updated_at:>='" + s + "')";
    if end.None? then lower
    else
      var e := FormatDatetime(end.value, true);
      "(" + lower + " AND (created_at:<='" + e + "' OR updated_at:<='" + e + "'))"
  }

  /** A rendered bound holds no '<' and no double quote. */
  lemma BoundPlain(dt: Moment, isEnd: bool)
    ensures '<' !in FormatDatetime(dt, isEnd) && '"' !in FormatDatetime(dt, isEnd)
  {
    var s := FormatDatetime(dt, isEnd);
    FormatChars(dt, isEnd);
    forall k | 0 <= k < 17
      ensures s[k] != '<' && s[k] != '"'
    {
      assert BoundChar(s[k]);
    }
  }

  /**
    An upper bound (a '<') appears in either filter exactly when an end is
    given, and no filter holds a double quote, so splicing it into the
    query's string literal cannot end that literal early.
   */
  lemma BackfillShape(start: Moment, end: Option<Moment>)
    ensures ('<' in BackfillFilter(start, end) <==> end.Some?) && '"' !in BackfillFilter(start, end)
  {
    var s := FormatDatetime(start, false);
    BoundPlain(start, false);
    var a, b := "created_at:>='", "'";
    assert '<' !in a && '"' !in a && '<' !in b && '"' !in b;
    var lower := a + s + b;
    if end.Some? {
      var e := FormatDatetime(end.value, true);
      BoundPlain(end.value, true);
      var open, upper, close := "(", " AND created_at:<='", "')";
      assert '"' !in open && '<' in upper && '"' !in upper && '"' !in close;
      assert BackfillFilter(start, end) == open + lower + upper + e + close;
    }
  }

  lemma IncrementalShape(start: Moment, end: Option<Moment>)
    ensures ('<' in IncrementalFilter(start, end) <==> end.Some?) && '"' !in IncrementalFilter(start, end)
  {
    var s := FormatDatetime(start, false);
    BoundPlain(start, false);
    var lower := "(created_at:>='" + s + "' OR updated_at:>='" + s + "')";
    LowerPlain(s);
    if end.Some? {
      var e := FormatDatetime(end.value, true);
      BoundPlain(end.value, true);
      UpperHasLess(e);
      assert IncrementalFilter(start, end) == "(" + lower + (" AND (created_at:<='" + e + "' OR updated_at:<='" + e + "'))");
    }
  }

  lemma LowerPlain(s: string)
    requires '<' !in s && '"' !in s
    ensures var lower := "(created_at:>='" + s + "' OR updated_at:>='" + s + "')";
      '<' !in lower && '"' !in lower
  {
    var a, b, c := "(created_at:>='", "' OR updated_at:>='", "')";
    assert '<' !in a && '"' !in a;
    assert '<' !in b && '"' !in b;
    assert '<' !in c && '"' !in c;
    assert a + s + b + s + c == "(created_at:>='" + s + "' OR updated_at:>='" + s + "')";
  }

  lemma UpperHasLess(e: string)
    requires '"' !in e
    ensures var upper := " AND (created_at:<='" + e + "' OR updated_at:<='" + e + "'))";
      '<' in upper && '"' !in upper
  {
    var a, b, c := " AND (created_at:<='", "' OR updated_at:<='", "'))";
    assert '<' in a && '"' !in a;
    assert '"' !in b;
    assert '"' !in c;
    assert a + e + b + e + c == " AND (created_at:<='" + e + "' OR updated_at:<='" + e + "'))";
  }

  /** The start bound, rendered, opens the backfill filter right after its first `created_at:>='`. */
  lemma BackfillStartBound(start: Moment, end: Option<Moment>)
    ensures var q, k := BackfillFilter(start, end), if end.Some? then 15 else 14;
      k + 17 <= |q| && q[k..k + 17] == FormatDatetime(start, false)
  {
    var s := FormatDatetime(start, false);
    var b := "created_at:>='" + s + "'";
    assert b[14..31] == s by {
      InFront("created_at:>='" + s, "'", 14, 31);
      Behind("created_at:>='", s, 0, 17);
    }
    if end.Some? {
      var e := FormatDatetime(end.value, true);
      var q := "(" + b + " AND created_at:<='" + e + "')";
      assert q[15..32] == s by {
        InFront("(" + b + " AND created_at:<='" + e, "')", 15, 32);
        InFront("(" + b + " AND created_at:<='", e, 15, 32);
        InFront("(" + b, " AND created_at:<='", 15, 32);
        Behind("(", b, 14, 31);
      }
    }
  }

  /** The start bound, rendered, opens the incremental filter right after its first `(created_at:>='`. */
  lemma IncrementalStartBound(start: Moment, end: Option<Moment>)
    ensures var q, k := IncrementalFilter(start, end), if end.Some? then 16 else 15;
      k + 17 <= |q| && q[k..k + 17] == FormatDatetime(start, false)
  {
    var s := FormatDatetime(start, false);
    var i := "(created_at:>='" + s + "' OR updated_at:>='" + s + "')";
    assert i[15..32] == s by {
      InFront("(created_at:>='" + s + "' OR updated_at:>='" + s, "')", 15, 32);
      InFront("(created_at:>='" + s + "' OR updated_at:>='", s, 15, 32);
      InFront("(created_at:>='" + s, "' OR updated_at:>='", 15, 32);
      Behind("(created_at:>='", s, 0, 17);
    }
    if end.Some? {
      var e := FormatDatetime(end.value, true);
      var q := "(" + i + " AND (created_at:<='" + e + "' OR updated_at:<='" + e + "'))";
      assert q[16..33] == s by {
        InFront("(" + i + " AND (created_at:<='" + e + "' OR updated_at:<='" + e, "'))", 16, 33);
        InFront("(" + i + " AND (created_at:<='" + e + "' OR updated_at:<='", e, 16, 33);
        InFront("(" + i + " AND (created_at:<='" + e, "' OR updated_at:<='", 16, 33);
        InFront("(" + i + " AND (created_at:<='", e, 16, 33);
        InFront("(" + i, " AND (created_at:<='", 16, 33);
        Behind("(", i, 15, 32);
      }
    }
  }

  /** A slice inside the front part of a concatenation is a slice of that part. */
  lemma InFront(a: string, b: string, i: nat, j: nat)
    requires i <= j <= |a|
    ensures (a + b)[i..j] == a[i..j]
  {
    assert forall d :: 0 <= d < j - i ==> (a + b)[i..j][d] == a[i..j][d];
  }

  /** A slice inside the back part of a concatenation is a slice of that part, shifted by the front's length. */
  lemma Behind(a: string, b: string, i: nat, j: nat)
    requires i <= j <= |b|
    ensures (a + b)[|a| + i..|a| + j] == b[i..j]
  {
    assert forall d :: 0 <= d < j - i ==> (a + b)[|a| + i..|a| + j][d] == b[i..j][d];
  }

  /**
    `__init__`: the endpoint of the shop at the fixed API version, and the
    filter of the fill type; any other fill type raises ValueError.
   */
  function NewClient(shopName: string, accessToken: string, fillType: string, start: Moment, end: Option<Moment>)
    : (r: Result<ShopifyClient>)
    ensures r.Err? <==> fillType != "backfill" && fillType != "incremental"
    ensures r.Err? ==> r.error == ValueError
    ensures r.Ok? ==> r.value.accessToken == accessToken
    ensures r.Ok? ==> r.value.baseUrl == "https://" + shopName + "/admin/api/" + ApiVersion + "/graphql.json"
    ensures fillType == "backfill" ==> r.Ok? && r.value.filterQuery == BackfillFilter(start, end)
    ensures fillType == "incremental" ==> r.Ok? && r.value.filterQuery == IncrementalFilter(start, end)
  {
    var baseUrl := "https://" + shopName + "/admin/api/" + ApiVersion + "/graphql.json";
    if fillType == "backfill" then Ok(ShopifyClient(baseUrl, accessToken, BackfillFilter(start, end)))
    else if fillType == "incremental" then Ok(ShopifyClient(baseUrl, accessToken, IncrementalFilter(start, end)))
    else Err(ValueError)
  }

  // ---------------------------------------------------------------------------
  // Pages

  /** What the client writes instead of sleeping or calling the network. */
  datatype Event =
    | Wait(seconds: int)
    | Post(after: Value, first: int, query: string)  // `after` is left out of the query when it is None

  /** One scripted answer to `requests.post`: a response and its decoded body, or the exception the call raised. */
  datatype Reply = Response(status: int, body: Value) | Failure

  datatype Outcome = Done(orders: seq<Value>) | Raised(error: Exception) | Exhausted

  /** A run, or the rest of one from some page on: how it ends, what it logged, how many replies it read. */
  datatype Trace = Trace(outcome: Outcome, log: seq<Event>, replies: nat)

  /** A page as the client reads it: its nodes, and the cursor and credits of the next page when there is one. */
  datatype Page = Page(nodes: seq<Value>, next: Option<(Value, Value)>)

  /**
    `_enforce_rate_limit(credits)`, called only when credits is not None:
    below 250 it waits 5 seconds; a value that cannot be compared with a
    number raises TypeError, which it catches and waits 1 second.
   */
  function RateLimitWaits(credits: Value): (r: seq<Event>) {
    match credits
    case Null => []
    case Bool(b) => [Wait(5)]
    case Int(i) => if i < CreditFloor then [Wait(5)] else []
    case Float(x) => if x < CreditFloor as real then [Wait(5)] else []
    case _ => [Wait(1)]
  }

  /** The first page is asked for with no credits, so it never waits; a number waits exactly when it is below 250. */
  lemma RateLimitSpec(credits: Value)
    ensures credits.Null? ==> RateLimitWaits(credits) == []
    ensures credits.Int? ==> (RateLimitWaits(credits) == [Wait(5)] <==> credits.i < 250)
    ensures credits.Int? ==> (RateLimitWaits(credits) == [] <==> credits.i >= 250)
    ensures (credits.Str? || credits.List? || credits.Object?) ==> RateLimitWaits(credits) == [Wait(1)]
  {
  }

  /**
    What `get_orders` reads from a 2xx body: `data.orders.nodes` (default
    []) and `data.orders.pageInfo` (default {}), each `.get` on a value
    that is not a dict an AttributeError; `extend` with nodes that are not
    a list is taken as a TypeError; while `hasNextPage` is truthy,
    `pageInfo["endCursor"]` (a KeyError when absent) and
    `extensions.cost.throttleStatus.currentlyAvailable` (default 0).
   */
  function ReadPage(body: Value): (r: Result<Page>) {
    var data :- GetIn(body, "data", Object(map[]));
    var orders :- GetIn(data, "orders", Object(map[]));
    var nodes :- GetIn(orders, "nodes", List([]));
    var pageInfo :- GetIn(orders, "pageInfo", Object(map[]));
    if !nodes.List? then Err(TypeError)
    else
      var more :- GetIn(pageInfo, "hasNextPage", Null);
      if !Truthy(more) then Ok(Page(nodes.items, None))
      else if "endCursor" !in pageInfo.fields then Err(KeyError)
      else
        var extensions :- GetIn(body, "extensions", Object(map[]));
        var cost :- GetIn(extensions, "cost", Object(map[]));
        var throttle :- GetIn(cost, "throttleStatus", Object(map[]));
        var credits :- GetIn(throttle, "currentlyAvailable", Int(0));
        Ok(Page(nodes.items, Some((pageInfo.fields["endCursor"], credits))))
  }

  /** A next page whose body reports no throttle status carries credits 0, so the request for it waits. */
  lemma MissingThrottleWaits(body: Value)
    requires body.Object? && "extensions" !in body.fields
    requires ReadPage(body).Ok? && ReadPage(body).value.next.Some?
    ensures ReadPage(body).value.next.value.1 == Int(0)
    ensures RateLimitWaits(ReadPage(body).value.next.value.1) == [Wait(5)]
  {
  }

  /** A status `raise_for_status` raises on. */
  predicate HttpFailure(status: int) {
    400 <= status < 600
  }

  /**
    `get_orders(cursor, credits)` on the rest of the script: the pause the
    credits call for, the request, then this page's nodes followed by
    what the call for the next page returns. Every exception propagates.
   */
  function Fetch(c: ShopifyClient, cursor: Value, credits: Value, replies: seq<Reply>): (t: Trace)
    ensures t.replies <= |replies|
    decreases |replies|
  {
    var events := RateLimitWaits(credits) + [Post(cursor, PageSize, c.filterQuery)];
    if replies == [] then Trace(Exhausted, events, 0)
    else match replies[0]
      case Failure => Trace(Raised(RequestFailed), events, 1)
      case Response(status, body) =>
        if HttpFailure(status) then Trace(Raised(HttpError(status)), events, 1)
        else match ReadPage(body)
          case Err(e) => Trace(Raised(e), events, 1)
          case Ok(page) =>
            if page.next.None? then Trace(Done(page.nodes), events, 1)
            else
              var rest := Fetch(c, page.next.value.0, page.next.value.1, replies[1..]);
              Trace(if rest.outcome.Done? then Done(page.nodes + rest.outcome.orders) else rest.outcome,
                    events + rest.log, 1 + rest.replies)
  }

  /** `get_orders()`, as the activity calls it: no cursor and no credits. */
  function GetOrders(c: ShopifyClient, replies: seq<Reply>): Trace {
    Fetch(c, Null, Null, replies)
  }

  // ---------------------------------------------------------------------------
  // What a run of `get_orders` guarantees

  /** The nodes a reply contributes when the client reads its page. */
  function Nodes(reply: Reply): seq<Value> {
    if reply.Response? && !HttpFailure(reply.status) && ReadPage(reply.body).Ok? then ReadPage(reply.body).value.nodes
    else []
  }

  /** The nodes of a stretch of replies, in order. */
  function AllNodes(replies: seq<Reply>): seq<Value> {
    if replies == [] then [] else Nodes(replies[0]) + AllNodes(replies[1..])
  }

  /** The requests a log holds. */
  function Posts(log: seq<Event>): nat {
    if log == [] then 0 else (if log[0].Post? then 1 else 0) + Posts(log[1..])
  }

  lemma {:induction false} PostsAppend(a: seq<Event>, b: seq<Event>)
    ensures Posts(a + b) == Posts(a) + Posts(b)
  {
    if a == [] {
      assert a + b == b;
    } else {
      assert (a + b)[1..] == a[1..] + b;
      PostsAppend(a[1..], b);
    }
  }

  lemma WaitsHoldNoPost(credits: Value)
    ensures Posts(RateLimitWaits(credits)) == 0
  {
    var w := RateLimitWaits(credits);
    if w != [] {
      assert w[1..] == [];
    }
  }

  /**
    The orders returned are the nodes of every page read, in the order the
    pages came, with nothing dropped or repeated.
   */
  lemma {:induction false} PagesInOrder(c: ShopifyClient, cursor: Value, credits: Value, replies: seq<Reply>)
    ensures var t := Fetch(c, cursor, credits, replies);
      t.outcome.Done? ==> t.outcome.orders == AllNodes(replies[..t.replies])
    decreases |replies|
  {
    var t := Fetch(c, cursor, credits, replies);
    if replies != [] && replies[0].Response? && !HttpFailure(replies[0].status) && ReadPage(replies[0].body).Ok? {
      var page := ReadPage(replies[0].body).value;
      assert replies[..1] == [replies[0]];
      assert AllNodes([replies[0]]) == page.nodes + AllNodes([]);
      if page.next.Some? {
        var rest := Fetch(c, page.next.value.0, page.next.value.1, replies[1..]);
        PagesInOrder(c, page.next.value.0, page.next.value.1, replies[1..]);
        assert replies[..t.replies][0] == replies[0];
        assert replies[..t.replies][1..] == replies[1..][..rest.replies];
      }
    }
  }

  /**
    Nothing is retried: each reply read answers exactly one request, and
    a run that ran out of replies made one request more than it read.
   */
  lemma {:induction false} OnePostPerReply(c: ShopifyClient, cursor: Value, credits: Value, replies: seq<Reply>)
    ensures var t := Fetch(c, cursor, credits, replies);
      Posts(t.log) == if t.outcome.Exhausted? then t.replies + 1 else t.replies
    decreases |replies|
  {
    var waits := RateLimitWaits(credits);
    var events := waits + [Post(cursor, PageSize, c.filterQuery)];
    WaitsHoldNoPost(credits);
    PostsAppend(waits, [Post(cursor, PageSize, c.filterQuery)]);
    assert Posts([Post(cursor, PageSize, c.filterQuery)]) == 1;
    if replies != [] && replies[0].Response? && !HttpFailure(replies[0].status) && ReadPage(replies[0].body).Ok? {
      var page := ReadPage(replies[0].body).value;
      if page.next.Some? {
        var rest := Fetch(c, page.next.value.0, page.next.value.1, replies[1..]);
        OnePostPerReply(c, page.next.value.0, page.next.value.1, replies[1..]);
        PostsAppend(events, rest.log);
      }
    }
  }

  /** An HTTP error status ends the whole run at once with HttpError: no retry, whichever page it answers. */
  lemma HttpErrorRaised(c: ShopifyClient, cursor: Value, credits: Value, replies: seq<Reply>)
    requires replies != [] && replies[0].Response? && HttpFailure(replies[0].status)
    ensures Fetch(c, cursor, credits, replies)
         == Trace(Raised(HttpError(replies[0].status)), RateLimitWaits(credits) + [Post(cursor, 250, c.filterQuery)], 1)
  {
  }

  /**
    A page with a next page: the run goes on with the request for the next
    page, which carries its `endCursor` and comes after the pause its
    credits call for.
   */
  lemma NextPage(c: ShopifyClient, cursor: Value, credits: Value, replies: seq<Reply>)
    requires replies != [] && replies[0].Response? && !HttpFailure(replies[0].status)
    requires ReadPage(replies[0].body).Ok? && ReadPage(replies[0].body).value.next.Some?
    ensures var next := ReadPage(replies[0].body).value.next.value;
      var t, rest := Fetch(c, cursor, credits, replies), Fetch(c, next.0, next.1, replies[1..]);
      && t.log == RateLimitWaits(credits) + [Post(cursor, 250, c.filterQuery)] + rest.log
      && |rest.log| > |RateLimitWaits(next.1)|
      && rest.log[..|RateLimitWaits(next.1)| + 1] == RateLimitWaits(next.1) + [Post(next.0, 250, c.filterQuery)]
      && t.replies == 1 + rest.replies
  {
    var next := ReadPage(replies[0].body).value.next.value;
    LogOpens(c, next.0, next.1, replies[1..]);
  }

  /** Every call logs its pause and its request before anything else. */
  lemma LogOpens(c: ShopifyClient, cursor: Value, credits: Value, replies: seq<Reply>)
    ensures var t, w := Fetch(c, cursor, credits, replies), RateLimitWaits(credits);
      |t.log| > |w| && t.log[..|w| + 1] == w + [Post(cursor, 250, c.filterQuery)]
  {
    var t, w := Fetch(c, cursor, credits, replies), RateLimitWaits(credits);
    var events := w + [Post(cursor, PageSize, c.filterQuery)];
    assert t.log[..|events|] == events;
  }

  /** The first request of a run goes out at once and carries no cursor. */
  lemma FirstPageNoWait(c: ShopifyClient, replies: seq<Reply>)
    ensures var t := GetOrders(c, replies);
      |t.log| >= 1 && t.log[0] == Post(Null, 250, c.filterQuery)
  {
    var t := GetOrders(c, replies);
    assert t.log[..1] == [Post(Null, 250, c.filterQuery)];
  }
}
