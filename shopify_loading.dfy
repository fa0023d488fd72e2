/**
  The Shopify loader `main`: the one insert of the batch, the check query,
  the comparison of the store's `MAX(batchedAt)` with the run's
  `batchedAt` to the second, the metadata update on a match, and which of
  the two results it returns. Nothing is caught in `main`: every failure
  raises, except those `execute_query` itself turns into False.
 */
module ShopifyLoading {
  import opened Wrappers
  import opened DateTimes
  import opened Values
  import opened Stores

  /** What `main` returns: the insert's summary, or the update's `execute_query` result after a match. */
  datatype Returned = Inserted(summary: Summary) | Executed(done: bool)

  /** What the check decides once nothing has raised. */
  datatype Decision = Unmatched | Matched(update: MetaUpdate)

  /**
    The check on the rows of the query: `result_rows[0]` raises IndexError
    on no rows; `.strftime` on a `MAX(batchedAt)` that is no datetime (None
    included) raises AttributeError; `fromisoformat(batchedAt)` raises
    ValueError on text it rejects. On a match the update records the
    store's `MAX(updatedAt)` as text and the run's truncated `batchedAt`.
   */
  function Check(rows: seq<CheckRow>, connectionId: string, batchedAt: string): (r: Result<Decision>)
    ensures r.Err? ==> r.error in {IndexError, AttributeError, ValueError}
  {
    if rows == [] then Err(IndexError)
    else if !rows[0].batchedAt.Time? then Err(AttributeError)
    else
      match FromIsoFormat(batchedAt)
      case None => Err(ValueError)
      case Some(b) =>
        if RenderSeconds(rows[0].batchedAt.at) != RenderSeconds(b) then Ok(Unmatched)
        else Ok(Matched(Healthy(connectionId, StrOf(rows[0].updatedAt), RenderSeconds(b))))
  }

  /** The check passes exactly when the store's latest batch agrees with the run's `batchedAt` to the second. */
  lemma CheckToTheSecond(rows: seq<CheckRow>, connectionId: string, batchedAt: string, b: Moment)
    requires rows != [] && rows[0].batchedAt.Time?
    requires FromIsoFormat(batchedAt) == Some(b)
    ensures Check(rows, connectionId, batchedAt).Ok?
    ensures Check(rows, connectionId, batchedAt).value.Matched? <==> SameSecond(rows[0].batchedAt.at, b)
  {
    RenderSecondsMatch(rows[0].batchedAt.at, b);
  }

  /** A missing `MAX(batchedAt)` is not guarded: the check raises instead of skipping the update. */
  lemma NullBatchRaises(rows: seq<CheckRow>, connectionId: string, batchedAt: string)
    requires rows != [] && rows[0].batchedAt == Absent
    ensures Check(rows, connectionId, batchedAt) == Err(AttributeError)
  {
  }

  /** The stamp the transformer returns, `isoformat()` of the batch time, always parses. */
  lemma StampParses(rows: seq<CheckRow>, connectionId: string, stamp: Moment)
    requires rows != [] && rows[0].batchedAt.Time?
    ensures Check(rows, connectionId, IsoFormat(stamp)).Ok?
    ensures Check(rows, connectionId, IsoFormat(stamp)).value.Matched? <==> SameSecond(rows[0].batchedAt.at, stamp)
  {
    IsoRoundTrip(stamp);
    CheckToTheSecond(rows, connectionId, IsoFormat(stamp), stamp);
  }

  /** How far `main` gets: the exception that ends it, or what the check decided. */
  function Reach(connects: bool, accepts: bool, answer: Option<seq<CheckRow>>, connectionId: string, batchedAt: string)
    : Result<Decision>
  {
    if !connects || !accepts || answer.None? then Err(StoreFailure)
    else Check(answer.value, connectionId, batchedAt)
  }

  /**
    What `main` returns after a check that did not raise: on a match,
    `execute_query`'s bool (False for a failed or zero-row update), or the
    RuntimeError of an unconfigured `SupabaseDatabase()`; the insert's
    summary otherwise.
   */
  function Result(decision: Decision, metaConfigured: bool, metaApplies: bool, rows: nat): Result<Returned> {
    match decision
    case Unmatched => Ok(Inserted(Summary(rows)))
    case Matched(_) => if metaConfigured then Ok(Executed(metaApplies)) else Err(StoreFailure)
  }

  /**
    `main(table_name, data, column_names, connection_id, batchedAt)`: the
    settings are not checked; all rows go in one insert; the check decides
    between the update and the insert's summary.
   */
  method Load(store: ColumnStore, meta: MetadataStore, table: string, data: seq<seq<Cell>>,
              columnNames: seq<string>, connectionId: string, batchedAt: string)
    returns (r: Result<Returned>)
    modifies store, meta
    ensures var reach := Reach(store.connects, store.accepts, store.answer, connectionId, batchedAt);
      && (reach.Err? ==> r == Err(reach.error))
      && (reach.Ok? ==> r == Result(reach.value, meta.configured, meta.applies, |data|))
    ensures store.inserts == old(store.inserts) +
      if store.connects && store.accepts then [Written(table, data, columnNames)] else []
    ensures var reach := Reach(store.connects, store.accepts, store.answer, connectionId, batchedAt);
      meta.updates == old(meta.updates) +
        if reach.Ok? && reach.value.Matched? && meta.configured && meta.applies then [reach.value.update] else []
  {
    if !store.connects {
      return Err(StoreFailure);
    }
    var inserted := store.Insert(table, data, columnNames);
    if inserted.Err? {
      return Err(inserted.error);
    }
    var rows := store.Query();
    if rows.Err? {
      return Err(rows.error);
    }
    var decision := Check(rows.value, connectionId, batchedAt);
    if decision.Err? {
      return Err(decision.error);
    }
    var result := Inserted(inserted.value);
    if decision.value.Matched? {
      var executed := meta.Execute(decision.value.update);
      if executed.Err? {
        return Err(executed.error);
      }
      result := Executed(executed.value);
    }
    r := Ok(result);
  }

  /**
    The caller gets `execute_query`'s bool exactly when the check matched
    and the metadata store could be opened: True when the update touched a
    row, False when it failed or touched none. The insert's row count comes
    back exactly when the check found a different batch.
   */
  lemma ReturnedSelects(connects: bool, accepts: bool, answer: Option<seq<CheckRow>>, connectionId: string,
                        batchedAt: string, metaConfigured: bool, metaApplies: bool, rows: nat)
    requires Reach(connects, accepts, answer, connectionId, batchedAt).Ok?
    ensures var d := Reach(connects, accepts, answer, connectionId, batchedAt).value;
      var r := Result(d, metaConfigured, metaApplies, rows);
      && (r == Ok(Executed(true)) <==> d.Matched? && metaConfigured && metaApplies)
      && (r == Ok(Executed(false)) <==> d.Matched? && metaConfigured && !metaApplies)
      && (r.Err? <==> d.Matched? && !metaConfigured)
      && (r == Ok(Inserted(Summary(rows))) <==> d.Unmatched?)
      && (d.Matched? ==> d.update.metainfoUpdated == RenderSeconds(FromIsoFormat(batchedAt).value)
                         && d.update.lastSuccessful == StrOf(answer.value[0].updatedAt))
  {
  }
}
