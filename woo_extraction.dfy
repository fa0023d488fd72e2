/**
  The WooCommerce REST client: its settings, the query parameters of one
  page request, the pause before each attempt, and the page/retry loop of
  `get_orders`.

  The HTTP layer is a script: one `Reply` per `requests.get`, in the order
  the requests are made. Pauses (`asyncio.sleep`) and requests are written
  to a log of `Event`s instead of being performed. When the script runs out
  the run ends as `Exhausted`, which only says that the loop asked for more
  replies than the script holds.
 */
module WooExtraction {
  import opened Wrappers
  import opened Literals
  import opened DateTimes
  import opened Values

  /** The request model the activity builds. */
  datatype OrderRequest = OrderRequest(
    baseUrl: string,
    consumerKey: string,
    consumerSecret: string,
    connectedId: string,
    fillType: string,
    createdAfter: Option<DateTime>,
    lastUpdatedAfter: Option<DateTime>,
    perPage: Option<int>)

  /** `s.rstrip('/')`. */
  function StripSlashes(s: string): (r: string)
    ensures r <= s
    ensures r == [] || r[|r| - 1] != '/'
    ensures forall i :: |r| <= i < |s| ==> s[i] == '/'
  {
    if s != [] && s[|s| - 1] == '/' then StripSlashes(s[..|s| - 1]) else s
  }

  /** `request.PerPage or 100`: None and 0 are falsy. */
  function PerPageOf(p: Option<int>): int {
    if p.None? || p.value == 0 then 100 else p.value
  }

  /** The query parameters of one page request. */
  datatype Params = Params(
    page: int,
    perPage: int,
    orderBy: string,
    order: string,
    after: Option<DateTime>,          // sent as `after`, in UTC
    modifiedAfter: Option<DateTime>)  // sent as `modified_after`, in UTC

  /** What the loop writes instead of sleeping or calling the network. */
  datatype Event = Wait(seconds: int) | Fetch(params: Params)

  /** One scripted answer to `requests.get`: a response, or the exception the call raised. */
  datatype Reply =
    | Response(status: int, body: seq<Value>, totalPages: Option<string>)  // `X-WP-TotalPages`, when sent
    | Failure

  datatype Outcome =
    | Done(orders: seq<Value>)
    | Raised(error: Exception)
    | Exhausted(orders: seq<Value>)

  /** The statuses retried with a growing pause. */
  predicate Transient(status: int) {
    status in {429, 403, 500, 502, 503, 504}
  }

  /** `_enforce_rate_limit`: the pause before an attempt, chosen by the previous status. */
  function RateLimitWaits(status: int): seq<Event> {
    if status == 429 then [Wait(60)]
    else if status >= 500 then [Wait(30)]
    else []
  }

  /** `int(response.headers.get('X-WP-TotalPages', 1))`. */
  function TotalPages(header: Option<string>): Result<int> {
    match header
    case None => Ok(1)
    case Some(text) => if ParseInt(text).Some? then Ok(ParseInt(text).value) else Err(ValueError)
  }

  class WooClient {
    const baseUrl: string
    const consumerKey: string
    const consumerSecret: string
    const connectedId: string
    const fillType: string
    const createdAfter: Option<DateTime>
    const lastUpdatedAfter: Option<DateTime>
    const perPage: int
    var currentStatusCode: int

    constructor (request: OrderRequest)
      ensures baseUrl == StripSlashes(request.baseUrl)
      ensures consumerKey == request.consumerKey && consumerSecret == request.consumerSecret
      ensures connectedId == request.connectedId && fillType == request.fillType
      ensures createdAfter == request.createdAfter && lastUpdatedAfter == request.lastUpdatedAfter
      ensures perPage == PerPageOf(request.perPage) && perPage != 0
      ensures currentStatusCode == 0
    {
      baseUrl := StripSlashes(request.baseUrl);
      consumerKey := request.consumerKey;
      consumerSecret := request.consumerSecret;
      connectedId := request.connectedId;
      fillType := request.fillType;
      createdAfter := request.createdAfter;
      lastUpdatedAfter := request.lastUpdatedAfter;
      perPage := PerPageOf(request.perPage);
      currentStatusCode := 0;
    }

    /**
      `_build_params(page)`: the four fixed parameters, plus `after` for a
      backfill that has a start, or `modified_after` for an incremental run
      that has one.
     */
    function BuildParams(page: int): (p: Params)
      ensures p.page == page && p.perPage == perPage && p.orderBy == "date" && p.order == "asc"
      ensures p.after.Some? <==> fillType == "backfill" && createdAfter.Some?
      ensures p.modifiedAfter.Some? <==> fillType == "incremental" && lastUpdatedAfter.Some?
      ensures p.after.Some? ==> p.after == createdAfter
      ensures p.modifiedAfter.Some? ==> p.modifiedAfter == lastUpdatedAfter
    {
      var base := Params(page, perPage, "date", "asc", None, None);
      if fillType == "backfill" && createdAfter.Some? then base.(after := createdAfter)
      else if fillType == "incremental" && lastUpdatedAfter.Some? then base.(modifiedAfter := lastUpdatedAfter)
      else base
    }

    /**
      One pass through the `try` body of `get_orders` for the reply to its
      request, with the `except` clause: the client keeps the reply's
      status, and the result says whether the run ends or where it goes on.
     */
    method TryPage(page: int, retry: int, orders: seq<Value>, reply: Reply) returns (next: Next)
      modifies this
      ensures next == Handle(this, Loop(page, retry, old(currentStatusCode), orders), reply)
      ensures currentStatusCode == (if reply.Response? then reply.status else old(currentStatusCode))
    {
      var raised: Exception;
      var s := Loop(page, retry, currentStatusCode, orders);
      match reply {
        case Failure =>
          raised := RequestFailed;
        case Response(status, body, header) =>
          currentStatusCode := status;
          s := s.(status := status);
          if status == 200 {
            s := s.(orders := orders + body);
            var total := TotalPages(header);
            if total.Err? {
              raised := total.error;
            } else if page >= total.value || |body| < perPage {
              return Stop(Done(s.orders), [], status);
            } else {
              return Go([], Outer(s.(page := page + 1)));
            }
          } else if Transient(status) {
            s := s.(retry := retry + 1);
            if s.retry == 3 {
              raised := MaxRetries(status);
            } else {
              return Go([Wait(5 * s.retry)], Continuing(s));
            }
          } else {
            raised := UnexpectedStatus(status);
          }
      }
      // the `except` clause
      s := s.(retry := s.retry + 1);
      if s.retry == 3 {
        return Stop(Raised(raised), [], s.status);
      }
      return Go([Wait(5 * s.retry)], Continuing(s));
    }

    /**
      `get_orders`, its two loops written out. The result and the log are
      those of `Run` from the first page with a fresh retry budget; the
      client keeps the status of the last response.
     */
    method GetOrders(script: seq<Reply>) returns (outcome: Outcome, log: seq<Event>)
      modifies this
      ensures var t := Run(this, Loop(1, 0, old(currentStatusCode), []), script);
        outcome == t.outcome && log == t.log && currentStatusCode == t.status
    {
      ghost var goal := Run(this, Loop(1, 0, currentStatusCode, []), script);
      var orders: seq<Value> := [];
      var page := 1;
      var i := 0;
      log := [];
      while true
        invariant 0 <= i <= |script|
        invariant goal == Prefix(log, i, Run(this, Loop(page, 0, currentStatusCode, orders), script[i..]))
        decreases |script| - i
      {
        var ended, s, j, more := RetryPage(page, orders, script, i);
        if ended.Some? {
          outcome := ended.value;
          log := log + more;
          return;
        }
        PrefixJoin(log, more, i, j - i, After(this, Outer(s), script[j..]));
        log, i := log + more, j;
        page, orders := s.page, s.orders;
        EnterPage(this, s, script[i..]);
        if page > 100 {
          assert goal == Prefix(log, i, Trace(Done(orders), [], currentStatusCode, 0));
          assert log + [] == log;
          break;
        }
        assert s.(retry := 0) == Loop(page, 0, currentStatusCode, orders);
      }
      outcome := Done(orders);
    }

    /**
      The inner `while retry_count < 3` loop of `get_orders` for one page,
      from reply `i0` of the script on: either the run ends there, with
      the log of this stretch, or the loop is left for the outer
      `page > 100` test in state `s`, reply `i` being the next unread.
     */
    method RetryPage(page: int, orders: seq<Value>, script: seq<Reply>, i0: nat)
      returns (ended: Option<Outcome>, s: Loop, i: nat, log: seq<Event>)
      requires i0 <= |script|
      modifies this
      ensures i0 < i <= |script| || (i == i0 && ended.Some?)
      ensures var t := Run(this, Loop(page, 0, old(currentStatusCode), orders), script[i0..]);
        if ended.Some? then ended.value == t.outcome && log == t.log && currentStatusCode == t.status
        else s.status == currentStatusCode && t == Prefix(log, i - i0, After(this, Outer(s), script[i..]))
    {
      ghost var goal := Run(this, Loop(page, 0, currentStatusCode, orders), script[i0..]);
      var page, orders, retry := page, orders, 0;
      i, log := i0, [];
      EnterRetry(this, Loop(page, 0, currentStatusCode, orders), script[i0..]);
      assert [] + goal.log == goal.log;
      while retry < 3
        invariant i0 <= i <= |script|
        invariant retry > 0 ==> i0 < i
        invariant goal == Prefix(log, i - i0, After(this, Continuing(Loop(page, retry, currentStatusCode, orders)), script[i..]))
        decreases |script| - i
      {
        var at := Loop(page, retry, currentStatusCode, orders);
        EnterRetry(this, at, script[i..]);
        if i == |script| {
          assert script[i..] == [] && log + [] == log;
          return Some(Exhausted(orders)), at, i, log;
        }
        var head := RateLimitWaits(currentStatusCode) + [Fetch(BuildParams(page))];
        RunUnfold(this, at, script, i);
        var next := TryPage(page, retry, orders, script[i]);
        i := i + 1;
        match next {
          case Stop(o, waits, st) =>
            StopOn(log, i - 1 - i0, head, waits, o, st);
            return Some(o), at, i, log + head + waits;
          case Go(waits, p) =>
            GoOn(log, i - 1 - i0, head, waits, After(this, p, script[i..]));
            log := log + head + waits;
            if p.Outer? {
              return None, p.s, i, log;
            }
            page, retry, orders := p.s.page, p.s.retry, p.s.orders;
        }
      }
      s := Loop(page, retry, currentStatusCode, orders);
      EnterPage(this, s, script[i..]);
      ended := None;
    }
  }

  // ---------------------------------------------------------------------------
  // The loop as a function of the script

  /** The loop variables: `page`, `retry_count`, `current_status_code`, `master_orders`. */
  datatype Loop = Loop(page: int, retry: int, status: int, orders: seq<Value>)

  /** Where an attempt leaves the loop: at the inner loop's condition, or at the outer `page > 100` test. */
  datatype Phase = Continuing(s: Loop) | Outer(s: Loop)

  /** What one attempt leads to: the run ends, or it goes on at a phase after some pauses. */
  datatype Next = Stop(outcome: Outcome, waits: seq<Event>, status: int) | Go(waits: seq<Event>, phase: Phase)

  /** A whole run: its outcome, its log, the last status, and how many replies it used. */
  datatype Trace = Trace(outcome: Outcome, log: seq<Event>, status: int, used: nat)

  function Prefix(events: seq<Event>, n: nat, t: Trace): Trace {
    t.(log := events + t.log, used := n + t.used)
  }

  /** The `except` clause: count the failure, re-raise on the third, otherwise pause 5 × count. */
  function Caught(s: Loop, e: Exception): (r: Next)
    ensures r.Go? ==> r.phase == Continuing(s.(retry := s.retry + 1))
  {
    var retry := s.retry + 1;
    if retry == 3 then Stop(Raised(e), [], s.status)
    else Go([Wait(5 * retry)], Continuing(s.(retry := retry)))
  }

  /** The body of the `try` for one reply, with its `except` clause. */
  function Handle(c: WooClient, s: Loop, reply: Reply): (r: Next)
    ensures r.Go? && r.phase.Continuing? ==> r.phase.s.page == s.page && r.phase.s.retry > s.retry
    ensures r.Go? && r.phase.Outer? ==> r.phase.s.page == s.page + 1
    ensures r.Go? ==> r.phase.s.status == (if reply.Response? then reply.status else s.status)
  {
    match reply
    case Failure => Caught(s, RequestFailed)
    case Response(status, body, header) =>
      if status == 200 then
        var s' := s.(status := status, orders := s.orders + body);
        match TotalPages(header)
        case Err(e) => Caught(s', e)
        case Ok(total) =>
          if s.page >= total || |body| < c.perPage then Stop(Done(s'.orders), [], status)
          else Go([], Outer(s'.(page := s.page + 1)))
      else if Transient(status) then
        var retry := s.retry + 1;
        if retry == 3 then Caught(s.(status := status, retry := retry), MaxRetries(status))
        else Go([Wait(5 * retry)], Continuing(s.(status := status, retry := retry)))
      else Caught(s.(status := status), UnexpectedStatus(status))
  }

  /**
    The loop state of the next attempt after a phase: the same one while
    the inner condition holds, otherwise a fresh budget, unless the outer
    test finds the page past 100.
   */
  function Resume(p: Phase): Option<Loop> {
    match p
    case Continuing(s) =>
      if s.retry < 3 then Some(s)
      else if s.page > 100 then None
      else Some(s.(retry := 0))
    case Outer(s) =>
      if s.page > 100 then None else Some(s.(retry := 0))
  }

  /** The run of `get_orders` from an attempt in state `s`, answering its requests from `rest`. */
  function Run(c: WooClient, s: Loop, rest: seq<Reply>): Trace
    decreases |rest|, 0
  {
    if rest == [] then Trace(Exhausted(s.orders), [], s.status, 0)
    else Follow(c, Try(c, s.page, s.status), Handle(c, s, rest[0]), rest[1..])
  }

  /** The run after one attempt that logged `head` and led to `next`, with `rest` still unread. */
  function Follow(c: WooClient, head: seq<Event>, next: Next, rest: seq<Reply>): Trace
    decreases |rest|, 2
  {
    match next
    case Stop(outcome, waits, status) => Trace(outcome, head + waits, status, 1)
    case Go(waits, p) => Prefix(head + waits, 1, After(c, p, rest))
  }

  /** The run from a phase: the outer test may end it with the records held. */
  function After(c: WooClient, p: Phase, rest: seq<Reply>): Trace
    decreases |rest|, 1
  {
    match Resume(p)
    case None => Trace(Done(p.s.orders), [], p.s.status, 0)
    case Some(s) => Run(c, s, rest)
  }

  /** The inner loop's condition holds: the next attempt is made in the same state. */
  lemma EnterRetry(c: WooClient, s: Loop, rest: seq<Reply>)
    requires s.retry < 3
    ensures After(c, Continuing(s), rest) == Run(c, s, rest)
  {
  }

  /** After the inner loop, by its condition or by `break`: the outer test ends the run or starts the page afresh. */
  lemma EnterPage(c: WooClient, s: Loop, rest: seq<Reply>)
    ensures s.retry >= 3 ==> After(c, Continuing(s), rest) == After(c, Outer(s), rest)
    ensures After(c, Outer(s), rest)
         == if s.page > 100 then Trace(Done(s.orders), [], s.status, 0) else Run(c, s.(retry := 0), rest)
  {
  }

  /** An attempt with script position `i` still in range: its request, then where its reply leads. */
  lemma RunUnfold(c: WooClient, s: Loop, script: seq<Reply>, i: nat)
    requires i < |script|
    ensures Run(c, s, script[i..]) == Follow(c, Try(c, s.page, s.status), Handle(c, s, script[i]), script[i + 1..])
  {
    assert script[i..][0] == script[i] && script[i..][1..] == script[i + 1..];
  }

  /** What one attempt at `page` logs before its reply: the pause for the previous status, then the request. */
  function Try(c: WooClient, page: int, status: int): seq<Event> {
    RateLimitWaits(status) + [Fetch(c.BuildParams(page))]
  }

  /**
    A run with a reply at hand, one attempt unfolded: it stops with that
    attempt, ends at the outer test, or goes on to the next attempt.
   */
  lemma RunOn(c: WooClient, s: Loop, rest: seq<Reply>)
    requires rest != []
    ensures var next := Handle(c, s, rest[0]); var head := Try(c, s.page, s.status);
      Run(c, s, rest) ==
        if next.Stop? then Trace(next.outcome, head + next.waits, next.status, 1)
        else if Resume(next.phase).None? then Trace(Done(next.phase.s.orders), head + next.waits, next.phase.s.status, 1)
        else Prefix(head + next.waits, 1, Run(c, Resume(next.phase).value, rest[1..]))
  {
    var next := Handle(c, s, rest[0]);
    var head := Try(c, s.page, s.status);
    assert Run(c, s, rest) == Follow(c, head, next, rest[1..]);
    if next.Go? {
      assert head + next.waits + [] == head + next.waits;
      if Resume(next.phase).None? {
        assert After(c, next.phase, rest[1..]) == Trace(Done(next.phase.s.orders), [], next.phase.s.status, 0);
      } else {
        assert After(c, next.phase, rest[1..]) == Run(c, Resume(next.phase).value, rest[1..]);
      }
    }
  }

  lemma GoOn(log: seq<Event>, n: nat, head: seq<Event>, waits: seq<Event>, t: Trace)
    ensures Prefix(log, n, Prefix(head + waits, 1, t)) == Prefix(log + head + waits, n + 1, t)
  {
    assert log + (head + waits + t.log) == log + head + waits + t.log;
  }

  lemma StopOn(log: seq<Event>, n: nat, head: seq<Event>, waits: seq<Event>, o: Outcome, st: int)
    ensures Prefix(log, n, Trace(o, head + waits, st, 1)) == Trace(o, log + head + waits, st, n + 1)
  {
    assert log + (head + waits) == log + head + waits;
  }

  lemma PrefixJoin(a: seq<Event>, b: seq<Event>, n: nat, k: nat, t: Trace)
    ensures Prefix(a, n, Prefix(b, k, t)) == Prefix(a + b, n + k, t)
  {
    assert a + (b + t.log) == a + b + t.log;
  }

  lemma PrefixTwice(a: seq<Event>, b: seq<Event>, n: nat, t: Trace)
    ensures Prefix(a, 1, Prefix(b, n, t)) == Prefix(a + b, n + 1, t)
  {
    assert a + (b + t.log) == a + b + t.log;
  }

  // ---------------------------------------------------------------------------
  // What a run guarantees

  /** The records a reply adds: the body of a 200, added before the header is read. */
  function Appended(reply: Reply): seq<Value> {
    if reply.Response? && reply.status == 200 then reply.body else []
  }

  /** The records of a stretch of replies, in order. */
  function Bodies(replies: seq<Reply>): seq<Value> {
    if replies == [] then [] else Appended(replies[0]) + Bodies(replies[1..])
  }

  /** One attempt adds the records of its reply, and never raises "Max retries reached". */
  lemma HandleAppends(c: WooClient, s: Loop, reply: Reply)
    ensures var r := Handle(c, s, reply);
      && (r.Go? ==> r.phase.s.orders == s.orders + Appended(reply))
      && (r.Stop? && r.outcome.Done? ==> r.outcome.orders == s.orders + Appended(reply))
      && (r.Stop? && r.outcome.Raised? ==> !r.outcome.error.MaxRetries?)
  {
  }

  /**
    The returned records are the records already held followed by the body
    of every 200 response the run read, in the order read: nothing is
    dropped, deduplicated or re-sorted (a 200 whose page header does not
    parse adds its body before the page is retried).
   */
  lemma {:induction false} OrdersAccumulate(c: WooClient, s: Loop, rest: seq<Reply>)
    ensures Run(c, s, rest).used <= |rest|
    ensures var t := Run(c, s, rest);
      t.outcome.Done? || t.outcome.Exhausted? ==> t.outcome.orders == s.orders + Bodies(rest[..t.used])
    decreases |rest|
  {
    if rest != [] {
      var next := Handle(c, s, rest[0]);
      HandleAppends(c, s, rest[0]);
      assert rest[..1] == [rest[0]] && rest[..1][1..] == [];
      RunOn(c, s, rest);
      if next.Go? && Resume(next.phase).Some? {
        var s' := Resume(next.phase).value;
        OrdersAccumulate(c, s', rest[1..]);
        var u := Run(c, s', rest[1..]).used;
        assert rest[..1 + u][0] == rest[0] && rest[..1 + u][1..] == rest[1..][..u];
      }
    }
  }

  /** Every request asks for a page between 1 and 100: the loop stops once the page passes 100. */
  lemma {:induction false} PagesWithinCeiling(c: WooClient, s: Loop, rest: seq<Reply>)
    requires 1 <= s.page <= 100
    ensures var log := Run(c, s, rest).log;
      forall k :: 0 <= k < |log| && log[k].Fetch? ==> 1 <= log[k].params.page <= 100
    decreases |rest|
  {
    if rest != [] {
      var next := Handle(c, s, rest[0]);
      RunOn(c, s, rest);
      if next.Go? && Resume(next.phase).Some? {
        PagesWithinCeiling(c, Resume(next.phase).value, rest[1..]);
      }
    }
  }

  /**
    The "Max retries reached" exception never leaves `get_orders`: the
    `except` clause that catches it has already counted to three, counts
    to four, and lets the loop go on.
   */
  lemma {:induction false} MaxRetriesNeverEscapes(c: WooClient, s: Loop, rest: seq<Reply>)
    ensures Run(c, s, rest).outcome.Raised? ==> !Run(c, s, rest).outcome.error.MaxRetries?
    decreases |rest|
  {
    if rest != [] {
      var next := Handle(c, s, rest[0]);
      HandleAppends(c, s, rest[0]);
      RunOn(c, s, rest);
      if next.Go? && Resume(next.phase).Some? {
        MaxRetriesNeverEscapes(c, Resume(next.phase).value, rest[1..]);
      }
    }
  }

  /** An attempt with a reply at hand: the pause and request, then where the reply leads. */
  lemma AttemptOne(c: WooClient, s: Loop, reply: Reply, rest: seq<Reply>)
    ensures Run(c, s, [reply] + rest) == Follow(c, Try(c, s.page, s.status), Handle(c, s, reply), rest)
  {
    assert ([reply] + rest)[0] == reply && ([reply] + rest)[1..] == rest;
  }

  /**
    Three transient statuses in a row on one page: pauses of 5 and 10
    seconds after the first two, the third is caught, counted a fourth
    time and followed by a 20-second pause, and the same page is tried
    again with a fresh budget; nothing is raised.
   */
  lemma ThirdTransientSwallowed(c: WooClient, s: Loop, r1: Reply, r2: Reply, r3: Reply, rest: seq<Reply>)
    requires s.retry == 0 && 1 <= s.page <= 100
    requires r1.Response? && Transient(r1.status)
    requires r2.Response? && Transient(r2.status)
    requires r3.Response? && Transient(r3.status)
    ensures Run(c, s, [r1, r2, r3] + rest)
         == Prefix((Try(c, s.page, s.status) + [Wait(5)]) + (Try(c, s.page, r1.status) + [Wait(10)])
                   + (Try(c, s.page, r2.status) + [Wait(20)]),
                   3, Run(c, s.(status := r3.status), rest))
  {
    var t := Run(c, s.(status := r3.status), rest);
    var s1 := s.(status := r1.status, retry := 1);
    var s2 := s.(status := r2.status, retry := 2);
    var a := Try(c, s.page, s.status) + [Wait(5)];
    var b := Try(c, s.page, r1.status) + [Wait(10)];
    var d := Try(c, s.page, r2.status) + [Wait(20)];
    assert [r1] + ([r2] + ([r3] + rest)) == [r1, r2, r3] + rest;
    calc {
      Run(c, s, [r1] + ([r2] + ([r3] + rest)));
      { TransientRetried(c, s, r1, [r2] + ([r3] + rest));
        assert s.(status := r1.status, retry := s.retry + 1) == s1 && [Wait(5 * (s.retry + 1))] == [Wait(5)]; }
      Prefix(a, 1, Run(c, s1, [r2] + ([r3] + rest)));
      { TransientRetried(c, s1, r2, [r3] + rest);
        assert s1.(status := r2.status, retry := s1.retry + 1) == s2 && [Wait(5 * (s1.retry + 1))] == [Wait(10)]; }
      Prefix(a, 1, Prefix(b, 1, Run(c, s2, [r3] + rest)));
      { TransientSwallowed(c, s2, r3, rest); assert s2.(status := r3.status, retry := 0) == s.(status := r3.status); }
      Prefix(a, 1, Prefix(b, 1, Prefix(d, 1, t)));
      { PrefixTwice(b, d, 1, t); }
      Prefix(a, 1, Prefix(b + d, 2, t));
      { PrefixTwice(a, b + d, 2, t); assert a + (b + d) == a + b + d; }
      Prefix(a + b + d, 3, t);
    }
  }

  /** A transient status before the third: the count goes up and the page is tried again after 5 × count seconds. */
  lemma TransientRetried(c: WooClient, s: Loop, reply: Reply, rest: seq<Reply>)
    requires 0 <= s.retry < 2
    requires reply.Response? && Transient(reply.status)
    ensures Run(c, s, [reply] + rest)
         == Prefix(Try(c, s.page, s.status) + [Wait(5 * (s.retry + 1))], 1,
                   Run(c, s.(status := reply.status, retry := s.retry + 1), rest))
  {
    AttemptOne(c, s, reply, rest);
  }

  /**
    The third transient status: "Max retries reached" is raised and caught
    by the `except` clause, which counts a fourth failure and pauses 20
    seconds; the inner loop ends and the outer one starts the page over.
   */
  lemma TransientSwallowed(c: WooClient, s: Loop, reply: Reply, rest: seq<Reply>)
    requires s.retry == 2 && 1 <= s.page <= 100
    requires reply.Response? && Transient(reply.status)
    ensures Run(c, s, [reply] + rest)
         == Prefix(Try(c, s.page, s.status) + [Wait(20)], 1,
                   Run(c, s.(status := reply.status, retry := 0), rest))
  {
    AttemptOne(c, s, reply, rest);
  }

  /** A reply that the `except` clause counts toward raising: a request exception or an unexpected status. */
  predicate Fails(reply: Reply) {
    reply.Failure? || (reply.status != 200 && !Transient(reply.status))
  }

  function ErrorOf(reply: Reply): Exception {
    if reply.Failure? then RequestFailed else UnexpectedStatus(reply.status)
  }

  function StatusAfter(status: int, reply: Reply): int {
    if reply.Response? then reply.status else status
  }

  /** A failing attempt before the third: the count goes up and the page is tried again after 5 × count seconds. */
  lemma FailureRetried(c: WooClient, s: Loop, reply: Reply, rest: seq<Reply>)
    requires 0 <= s.retry < 2 && Fails(reply)
    ensures Run(c, s, [reply] + rest)
         == Prefix(Try(c, s.page, s.status) + [Wait(5 * (s.retry + 1))], 1,
                   Run(c, s.(status := StatusAfter(s.status, reply), retry := s.retry + 1), rest))
  {
    AttemptOne(c, s, reply, rest);
  }

  /** Three failing attempts in a row on one page: pauses of 5 and 10 seconds, and the third is re-raised. */
  lemma ThirdFailureRaised(c: WooClient, s: Loop, r1: Reply, r2: Reply, r3: Reply, rest: seq<Reply>)
    requires s.retry == 0 && Fails(r1) && Fails(r2) && Fails(r3)
    ensures var st1 := StatusAfter(s.status, r1); var st2 := StatusAfter(st1, r2);
      Run(c, s, [r1, r2, r3] + rest)
      == Trace(Raised(ErrorOf(r3)),
               (Try(c, s.page, s.status) + [Wait(5)]) + (Try(c, s.page, st1) + [Wait(10)]) + Try(c, s.page, st2),
               StatusAfter(st2, r3), 3)
  {
    var st1 := StatusAfter(s.status, r1);
    var st2 := StatusAfter(st1, r2);
    var s1 := s.(status := st1, retry := 1);
    var s2 := s.(status := st2, retry := 2);
    var a := Try(c, s.page, s.status) + [Wait(5)];
    var b := Try(c, s.page, st1) + [Wait(10)];
    var d := Try(c, s.page, st2);
    var t := Trace(Raised(ErrorOf(r3)), d, StatusAfter(st2, r3), 1);
    assert [r1] + ([r2] + ([r3] + rest)) == [r1, r2, r3] + rest;
    calc {
      Run(c, s, [r1] + ([r2] + ([r3] + rest)));
      { FailureRetried(c, s, r1, [r2] + ([r3] + rest));
        assert s.(status := st1, retry := s.retry + 1) == s1 && [Wait(5 * (s.retry + 1))] == [Wait(5)]; }
      Prefix(a, 1, Run(c, s1, [r2] + ([r3] + rest)));
      { FailureRetried(c, s1, r2, [r3] + rest);
        assert s1.(status := st2, retry := s1.retry + 1) == s2 && [Wait(5 * (s1.retry + 1))] == [Wait(10)]; }
      Prefix(a, 1, Prefix(b, 1, Run(c, s2, [r3] + rest)));
      { AttemptOne(c, s2, r3, rest); assert d + [] == d; }
      Prefix(a, 1, Prefix(b, 1, t));
      { PrefixTwice(a, b, 1, t); }
      Prefix(a + b, 2, t);
    }
    assert a + b + d == (a + b) + d;
  }

  /**
    A 200 page: the run returns when the page is the last one the header
    announces or holds fewer records than `perPage`; otherwise the next page
    is requested with a fresh budget, unless that would be page 101.
   */
  lemma PageAnswered(c: WooClient, s: Loop, body: seq<Value>, header: Option<string>, total: int, rest: seq<Reply>)
    requires TotalPages(header) == Ok(total)
    ensures var t := Run(c, s, [Response(200, body, header)] + rest);
      var head := Try(c, s.page, s.status);
      if s.page >= total || |body| < c.perPage || s.page + 1 > 100 then t == Trace(Done(s.orders + body), head, 200, 1)
      else t == Prefix(head, 1, Run(c, Loop(s.page + 1, 0, 200, s.orders + body), rest))
  {
    AttemptOne(c, s, Response(200, body, header), rest);
    var head := Try(c, s.page, s.status);
    assert head + [] == head;
  }
}
