/**
  The WooCommerce loader `main`: the connection settings check, the one
  insert of the batch, the check query, the decision whether the batch
  landed (its `batchedAt` against the store's `MAX(batchedAt)`, both to the
  second), the metadata update that decision allows, and the result.
 */
module WooLoading {
  import opened Wrappers
  import opened Literals
  import opened DateTimes
  import opened Values
  import opened Stores

  /** `CLICKHOUSE_HOST`, `CLICKHOUSE_USER`, `CLICKHOUSE_PASSWORD`, each None when unset. */
  datatype Env = Env(host: Option<string>, user: Option<string>, password: Option<string>)

  /** `all([host, user, password])`: each set and not empty. */
  predicate Configured(env: Env) {
    && env.host.Some? && env.host.value != []
    && env.user.Some? && env.user.value != []
    && env.password.Some? && env.password.value != []
  }

  /** `{"inserted_rows": len(data), "status": "success"}`. */
  datatype LoadResult = LoadResult(insertedRows: nat, status: string)

  /** What the check finds: which branch of the verification runs. */
  datatype Check =
    | NoRows                         // the query returned no row
    | NoBatch                        // `MAX(batchedAt)` is falsy
    | Mismatch                       // the two renderings differ
    | Match(update: Result<MetaUpdate>)  // the update to send, or the exception building it raises

  /** The store's `batchedAt` as the loader renders it: `strftime` of a datetime, `str()` of anything else. */
  function Observed(v: Stored): string {
    match v
    case Time(t) => RenderSeconds(t)
    case Text(s) => s
    case Absent => "None"
  }

  /**
    The update after a passed check: the store's `MAX(date_modified)` in
    `isoformat()`, or the current time when it is falsy; `.isoformat()` on a
    value that is not a datetime raises AttributeError.
   */
  function UpdateFor(connectionId: string, updatedAt: Stored, now: Moment): (r: Result<MetaUpdate>)
    ensures r.Err? <==> updatedAt.Text? && updatedAt.text != []
    ensures r.Ok? ==> r.value == Healthy(connectionId, Rendered(IsoFormat(if updatedAt.Time? then updatedAt.at else now)),
                                         IsoFormat(now))
  {
    match updatedAt
    case Time(t) => Ok(Healthy(connectionId, Rendered(IsoFormat(t)), IsoFormat(now)))
    case Text(s) => if s != [] then Err(AttributeError) else Ok(Healthy(connectionId, Rendered(IsoFormat(now)), IsoFormat(now)))
    case Absent => Ok(Healthy(connectionId, Rendered(IsoFormat(now)), IsoFormat(now)))
  }

  /**
    The verification on the rows of the check query: with a truthy
    `MAX(batchedAt)`, the run's `batchedAt` (every 'Z' read as +00:00) is
    parsed, which raises ValueError when it is no ISO date-time, and the
    two are compared as `%Y-%m-%d %H:%M:%S` text.
   */
  function Verify(rows: seq<CheckRow>, connectionId: string, batchedAt: string, now: Moment): (r: Result<Check>)
    ensures r.Err? ==> r.error == ValueError
  {
    if rows == [] then Ok(NoRows)
    else if !StoredTruthy(rows[0].batchedAt) then Ok(NoBatch)
    else
      match FromIsoFormat(ReplaceZ(batchedAt))
      case None => Err(ValueError)
      case Some(b) =>
        if Observed(rows[0].batchedAt) != RenderSeconds(b) then Ok(Mismatch)
        else Ok(Match(UpdateFor(connectionId, rows[0].updatedAt, now)))
  }

  /**
    A stored datetime passes the check exactly when it agrees with the
    run's `batchedAt` to the second; the UTC offsets and the fractions of
    a second are not compared.
   */
  lemma VerifyToTheSecond(rows: seq<CheckRow>, connectionId: string, batchedAt: string, now: Moment, b: Moment)
    requires rows != [] && rows[0].batchedAt.Time?
    requires FromIsoFormat(ReplaceZ(batchedAt)) == Some(b)
    ensures Verify(rows, connectionId, batchedAt, now).Ok?
    ensures Verify(rows, connectionId, batchedAt, now).value.Match? <==> SameSecond(rows[0].batchedAt.at, b)
  {
    RenderSecondsMatch(rows[0].batchedAt.at, b);
  }

  /**
    The stamp the transformer returns, `batchedAt.isoformat()`, always
    parses: the check never raises on it, and compares the stored value
    with the stamp itself.
   */
  lemma StampParses(rows: seq<CheckRow>, connectionId: string, stamp: Moment, now: Moment)
    requires rows != [] && rows[0].batchedAt.Time?
    ensures Verify(rows, connectionId, IsoFormat(stamp), now).Ok?
    ensures Verify(rows, connectionId, IsoFormat(stamp), now).value.Match? <==> SameSecond(rows[0].batchedAt.at, stamp)
  {
    IsoFormatHasNoZ(stamp);
    IsoRoundTrip(stamp);
    VerifyToTheSecond(rows, connectionId, IsoFormat(stamp), now, stamp);
  }

  /** How far `main` gets before it returns or raises: the exception that ends it, or what the check found. */
  function Reach(env: Env, connects: bool, accepts: bool, answer: Option<seq<CheckRow>>,
                 connectionId: string, batchedAt: string, now: Moment): Result<Check>
  {
    if !Configured(env) then Err(MissingConfig)
    else if !connects || !accepts || answer.None? then Err(StoreFailure)
    else Verify(answer.value, connectionId, batchedAt, now)
  }

  /** The update `main` sends, if any: only after a passed check whose update could be built. */
  function Sent(reach: Result<Check>): Option<MetaUpdate> {
    if reach.Ok? && reach.value.Match? && reach.value.update.Ok? then Some(reach.value.update.value) else None
  }

  /**
    `main(table_name, data, column_names, connection_id, batchedAt)`: a
    missing setting raises before any store is touched; otherwise all rows
    go in one insert, and once the insert and the check query succeed the
    result counts the rows, whatever the check found. A failed metadata
    update is only logged.
   */
  method Load(env: Env, store: ColumnStore, meta: MetadataStore, table: string, data: seq<seq<Cell>>,
              columnNames: seq<string>, connectionId: string, batchedAt: string, now: Moment)
    returns (r: Result<LoadResult>)
    modifies store, meta
    ensures var reach := Reach(env, store.connects, store.accepts, store.answer, connectionId, batchedAt, now);
      && (reach.Ok? ==> r == Ok(LoadResult(|data|, "success")))
      && (reach.Err? ==> r == Err(reach.error))
    ensures store.inserts == old(store.inserts) +
      if Configured(env) && store.connects && store.accepts then [Written(table, data, columnNames)] else []
    ensures var sent := Sent(Reach(env, store.connects, store.accepts, store.answer, connectionId, batchedAt, now));
      meta.updates == old(meta.updates) + if sent.Some? && meta.configured && meta.applies then [sent.value] else []
  {
    if !Configured(env) {
      return Err(MissingConfig);
    }
    if !store.connects {
      return Err(StoreFailure);
    }
    var inserted := store.Insert(table, data, columnNames);
    if inserted.Err? {
      return Err(inserted.error);
    }
    var rows := store.Query();
    if rows.Err? {
      return Err(rows.error);
    }
    var check := Verify(rows.value, connectionId, batchedAt, now);
    if check.Err? {
      return Err(check.error);
    }
    if check.value.Match? && check.value.update.Ok? {
      var updated := meta.Execute(check.value.update.value);
    }
    r := Ok(LoadResult(|data|, "success"));
  }

  /**
    The metadata is updated only after a passed check, and then it records
    the store's latest modification time, or the current time when the
    store has none, as the last successful extraction.
   */
  lemma UpdateOnlyOnMatch(env: Env, connects: bool, accepts: bool, answer: Option<seq<CheckRow>>,
                          connectionId: string, batchedAt: string, now: Moment)
    requires Sent(Reach(env, connects, accepts, answer, connectionId, batchedAt, now)).Some?
    ensures Configured(env) && connects && accepts && answer.Some? && answer.value != []
    ensures var row, u := answer.value[0], Sent(Reach(env, connects, accepts, answer, connectionId, batchedAt, now)).value;
      && StoredTruthy(row.batchedAt)
      && FromIsoFormat(ReplaceZ(batchedAt)).Some?
      && Observed(row.batchedAt) == RenderSeconds(FromIsoFormat(ReplaceZ(batchedAt)).value)
      && u.isActive && u.health == "healthy" && u.lastError.None? && u.connectionId == connectionId
      && u.lastSuccessful == Rendered(IsoFormat(if row.updatedAt.Time? then row.updatedAt.at else now))
  {
  }
}
