/**
  The two stores the loaders write to, as far as the loaders see them: the
  column store (ClickHouse), which takes one insert and answers the check
  query, and the metadata store (the "etl-highlevel-log" table), which
  takes one update. What each store answers is fixed when it is made; what
  it was asked to do is kept in its fields.
 */
module Stores {
  import opened Wrappers
  import opened DateTimes
  import opened Values

  /** A value the check query returns: None, a datetime, or some other value, here its text. */
  datatype Stored = Absent | Time(at: Moment) | Text(text: string)

  /** Python truthiness of a stored value: a datetime is always true. */
  predicate StoredTruthy(v: Stored) {
    v.Time? || (v.Text? && v.text != [])
  }

  /** The one row of `SELECT MAX(modified), MAX(created), MAX(batchedAt) ...`. */
  datatype CheckRow = CheckRow(updatedAt: Stored, createdAt: Stored, batchedAt: Stored)

  /** One `client.insert(table=..., data=..., column_names=...)`. */
  datatype Written = Written(table: string, rows: seq<seq<Cell>>, columns: seq<string>)

  /** What `client.insert` returns: its summary, here the number of rows it wrote. */
  datatype Summary = Summary(written: nat)

  /** The text spliced into the update for `last_successful_extraction_ts`. */
  datatype Stamp =
    | Rendered(text: string)  // a rendering the loader computed
    | StrOf(value: Stored)    // `str()` of a stored value; its characters are not modelled

  /** The `UPDATE "etl-highlevel-log" SET ... WHERE connected_id = ...` a loader sends. */
  datatype MetaUpdate = MetaUpdate(
    connectionId: string,
    lastSuccessful: Stamp,
    isActive: bool,
    health: string,
    lastError: Option<string>,
    metainfoUpdated: string)

  /** The update both loaders send once the check passes: active, healthy, no error. */
  function Healthy(connectionId: string, lastSuccessful: Stamp, metainfoUpdated: string): (u: MetaUpdate)
    ensures u.connectionId == connectionId && u.lastSuccessful == lastSuccessful && u.metainfoUpdated == metainfoUpdated
    ensures u.isActive && u.health == "healthy" && u.lastError.None?
  {
    MetaUpdate(connectionId, lastSuccessful, true, "healthy", None, metainfoUpdated)
  }

  class ColumnStore {
    /** The inserts the store has taken, oldest first. */
    var inserts: seq<Written>
    /** Whether `get_async_client` connects. */
    const connects: bool
    /** Whether an insert succeeds. */
    const accepts: bool
    /** The rows the check query returns, or None when the query raises. */
    const answer: Option<seq<CheckRow>>

    constructor (connects: bool, accepts: bool, answer: Option<seq<CheckRow>>)
      ensures this.connects == connects && this.accepts == accepts && this.answer == answer
      ensures inserts == []
    {
      this.connects := connects;
      this.accepts := accepts;
      this.answer := answer;
      inserts := [];
    }

    /** `client.insert`: the rows are written as one batch, or the call raises and nothing is written. */
    method Insert(table: string, rows: seq<seq<Cell>>, columns: seq<string>) returns (r: Result<Summary>)
      modifies this
      ensures accepts ==> r == Ok(Summary(|rows|)) && inserts == old(inserts) + [Written(table, rows, columns)]
      ensures !accepts ==> r == Err(StoreFailure) && inserts == old(inserts)
    {
      if !accepts {
        return Err(StoreFailure);
      }
      inserts := inserts + [Written(table, rows, columns)];
      r := Ok(Summary(|rows|));
    }

    /** `client.query` of the check: its result rows, or the exception it raised. */
    method Query() returns (r: Result<seq<CheckRow>>)
      ensures answer.Some? ==> r == Ok(answer.value)
      ensures answer.None? ==> r == Err(StoreFailure)
    {
      if answer.None? {
        return Err(StoreFailure);
      }
      r := Ok(answer.value);
    }
  }

  /**
    The metadata store behind `SupabaseDatabase().execute_query(query)`.
    The constructor raises RuntimeError when a SUPABASE_* setting is
    missing; `execute_query` itself never raises: it returns whether the
    update touched a row, and False when it fails or matches no row.
   */
  class MetadataStore {
    /** The updates the store has applied to some row, oldest first. */
    var updates: seq<MetaUpdate>
    /** Whether every SUPABASE_* setting is set, so that `SupabaseDatabase()` does not raise. */
    const configured: bool
    /** Whether an update runs and affects at least one row. */
    const applies: bool

    constructor (configured: bool, applies: bool)
      ensures this.configured == configured && this.applies == applies && updates == []
    {
      this.configured := configured;
      this.applies := applies;
      updates := [];
    }

    /**
      `SupabaseDatabase().execute_query(query)`: the constructor's
      RuntimeError when unconfigured; otherwise `rows_affected > 0`, with
      False for a failed or zero-row update, which leaves the store as it was.
     */
    method Execute(u: MetaUpdate) returns (r: Result<bool>)
      modifies this
      ensures !configured ==> r == Err(StoreFailure) && updates == old(updates)
      ensures configured ==> r == Ok(applies)
      ensures updates == old(updates) + if configured && applies then [u] else []
    {
      if !configured {
        return Err(StoreFailure);
      }
      if applies {
        updates := updates + [u];
      }
      r := Ok(applies);
    }
  }
}
