/**
 * The shared scraper base (scrapers/base_scraper.py): an HTTP fetch with
 * retries and back-off, a reusable database connection, and an upsert that
 * builds its SQL from the records' columns. The HTTP client answers through a
 * `Network` function of the URL and the attempt number; sleeping is recorded
 * in `sleeps` instead of waited; the database is a connection value and a
 * log of what was sent to it.
 */
module BaseScraping {
  import opened Wrappers
  import opened Text

  // ---------------------------------------------------------------- fetching

  /** What one `session.get` yields: a response, or a request error raised by the client. */
  datatype HttpAttempt = Response(status: int, body: string) | TransportFailure(message: string)

  /** The `RequestException` a failed attempt raises. */
  datatype FetchFailure = ConnectionFailure(message: string) | HttpStatusError(status: int)

  /** `fetch_url`'s outcome: the response, the exception it re-raises, or `None`. */
  datatype FetchResult = Fetched(response: HttpAttempt) | Raised(failure: FetchFailure) | NoResponse

  /** The answer to attempt `n` for a URL. */
  type Network = (string, nat) -> HttpAttempt

  /** `raise_for_status` raises for a client or server error status and for nothing else. */
  predicate IsErrorStatus(status: int)
  {
    400 <= status < 600
  }

  /** The exception an attempt raises, if any. */
  function AttemptFailure(a: HttpAttempt): Option<FetchFailure>
  {
    match a
    case TransportFailure(m) => Some(ConnectionFailure(m))
    case Response(status, _) => if IsErrorStatus(status) then Some(HttpStatusError(status)) else None
  }

  function Pow2(n: nat): nat
  {
    if n == 0 then 1 else 2 * Pow2(n - 1)
  }

  /** The back-off sleeps after failed attempts 0 .. n-1: 1, 2, 4, ... seconds. */
  function Backoffs(n: nat): (d: seq<nat>)
    ensures |d| == n && forall i :: 0 <= i < n ==> d[i] == Pow2(i)
  {
    if n == 0 then [] else Backoffs(n - 1) + [Pow2(n - 1)]
  }

  /** A run of the retry loop: its outcome, the seconds slept in order, and the number of requests sent. */
  datatype FetchRun = FetchRun(result: FetchResult, delays: seq<nat>, attempts: nat)

  /** The retry loop from attempt `attempt` on, with `retry` attempts in all. */
  function FetchFrom(url: string, net: Network, retry: int, attempt: nat): FetchRun
    decreases retry - attempt
  {
    if attempt >= retry then FetchRun(NoResponse, [], 0)
    else
      var answer := net(url, attempt);
      match AttemptFailure(answer)
      case None => FetchRun(Fetched(answer), [1], 1)
      case Some(f) =>
        if attempt == retry - 1 then FetchRun(Raised(f), [], 1)
        else
          var rest := FetchFrom(url, net, retry, attempt + 1);
          FetchRun(rest.result, [Pow2(attempt)] + rest.delays, 1 + rest.attempts)
  }

  /** The whole retry loop. */
  function Fetch(url: string, net: Network, retry: int): FetchRun
  {
    FetchFrom(url, net, retry, 0)
  }

  /** A database connection: its identity and whether it has been closed. */
  datatype DbConn = DbConn(serial: nat, closed: bool)

  /** A value of a record field. */
  datatype Field = IntField(i: int) | RealField(r: real) | TextField(s: string) | NullField

  /** A record: its columns and values in insertion order, as a Python dict keeps them. */
  type Record = seq<(string, Field)>

  /** What reached the database, in order. */
  datatype DbEvent =
    | CursorOpened
    | BatchExecuted(sql: string, rows: seq<seq<Field>>)
    | Committed
    | RolledBack
    | CursorClosed

  datatype SaveOutcome = NothingToSave | Saved(count: nat) | SaveRaised(error: string)

  // ---------------------------------------------------------------- upsert SQL

  function Keys(r: Record): (ks: seq<string>)
    ensures |ks| == |r| && forall i :: 0 <= i < |r| ==> ks[i] == r[i].0
  {
    seq(|r|, i requires 0 <= i < |r| => r[i].0)
  }

  function Values(r: Record): (vs: seq<Field>)
    ensures |vs| == |r| && forall i :: 0 <= i < |r| ==> vs[i] == r[i].1
  {
    seq(|r|, i requires 0 <= i < |r| => r[i].1)
  }

  function AllValues(data: seq<Record>): (rows: seq<seq<Field>>)
    ensures |rows| == |data| && forall i :: 0 <= i < |data| ==> rows[i] == Values(data[i])
  {
    seq(|data|, i requires 0 <= i < |data| => Values(data[i]))
  }

  /** One "%s" per column, separated by ", ". */
  function Placeholders(n: nat): string
  {
    Join(", ", Repeat("%s", n))
  }

  /** The columns that are not conflict keys, in column order. */
  function UpdateColumns(columns: seq<string>, keys: seq<string>): seq<string>
  {
    if columns == [] then []
    else
      var last := columns[|columns| - 1];
      UpdateColumns(columns[..|columns| - 1], keys) + (if last in keys then [] else [last])
  }

  /** "col = EXCLUDED.col" for each column. */
  function Assignments(columns: seq<string>): (a: seq<string>)
    ensures |a| == |columns| && forall i :: 0 <= i < |columns| ==> a[i] == columns[i] + " = EXCLUDED." + columns[i]
  {
    seq(|columns|, i requires 0 <= i < |columns| => columns[i] + " = EXCLUDED." + columns[i])
  }

  function InsertSql(table: string, columns: seq<string>): string
  {
    "INSERT INTO " + table + " (" + Join(", ", columns) + ") VALUES (" + Placeholders(|columns|) + ")"
  }

  function ConflictClause(columns: seq<string>, keys: seq<string>): string
  {
    " ON CONFLICT (" + Join(", ", keys) + ") DO UPDATE SET " + Join(", ", Assignments(UpdateColumns(columns, keys)))
  }

  /** The statement `save_to_db` sends: a plain insert, or an upsert when conflict keys are given. */
  function UpsertSql(table: string, columns: seq<string>, keys: seq<string>): (sql: string)
    ensures InsertSql(table, columns) <= sql
    ensures keys == [] <==> sql == InsertSql(table, columns)
  {
    InsertSql(table, columns) + (if keys != [] then ConflictClause(columns, keys) else "")
  }

  // ---------------------------------------------------------------- the scraper object

  class BaseScraper {
    var dbConn: Option<DbConn>
    var connectionsOpened: nat
    var sleeps: seq<nat>
    var requests: seq<string>
    var dbLog: seq<DbEvent>

    /** A new scraper has no connection and has sent nothing. */
    constructor ()
      ensures dbConn == None && connectionsOpened == 0
      ensures sleeps == [] && requests == [] && dbLog == []
    {
      dbConn := None;
      connectionsOpened := 0;
      sleeps := [];
      requests := [];
      dbLog := [];
    }

    /** `connect_db`: reuse the open connection, or open a fresh one when there is none or it is closed. */
    method ConnectDb() returns (conn: DbConn)
      modifies this`dbConn, this`connectionsOpened
      ensures !conn.closed && dbConn == Some(conn)
      ensures old(dbConn).Some? && !old(dbConn).value.closed ==>
        conn == old(dbConn).value && connectionsOpened == old(connectionsOpened)
      ensures old(dbConn).None? || old(dbConn).value.closed ==>
        connectionsOpened == old(connectionsOpened) + 1 && conn == DbConn(connectionsOpened, false)
    {
      if dbConn.None? || dbConn.value.closed {
        connectionsOpened := connectionsOpened + 1;
        dbConn := Some(DbConn(connectionsOpened, false));
      }
      conn := dbConn.value;
    }

    /** `close_db`: close the connection if there is one; closing twice is harmless. */
    method CloseDb()
      modifies this`dbConn
      ensures old(dbConn).None? ==> dbConn == None
      ensures old(dbConn).Some? ==> dbConn == Some(DbConn(old(dbConn).value.serial, true))
    {
      if dbConn.Some? {
        dbConn := Some(DbConn(dbConn.value.serial, true));
      }
    }

    /**
     * `fetch_url`: up to `retry` attempts; a success sleeps 1 s and returns the
     * response; a failure sleeps `2**attempt` seconds before the next attempt
     * and is re-raised when it is the last one.
     */
    method FetchUrl(url: string, net: Network, retry: int) returns (result: FetchResult)
      modifies this`sleeps, this`requests
      ensures var run := Fetch(url, net, retry);
        && result == run.result
        && sleeps == old(sleeps) + run.delays
        && requests == old(requests) + Repeat(url, run.attempts)
    {
      var attempt: nat := 0;
      while attempt < retry
        invariant Fetch(url, net, retry) == Resume(attempt, FetchFrom(url, net, retry, attempt))
        invariant sleeps == old(sleeps) + Backoffs(attempt)
        invariant requests == old(requests) + Repeat(url, attempt)
        decreases retry - attempt
      {
        var answer := net(url, attempt);
        requests := requests + [url];
        var failure := AttemptFailure(answer);
        if failure.None? {
          sleeps := sleeps + [1];
          RepeatSnoc(url, attempt);
          return Fetched(answer);
        }
        if attempt == retry - 1 {
          RepeatSnoc(url, attempt);
          return Raised(failure.value);
        }
        sleeps := sleeps + [Pow2(attempt)];
        RepeatSnoc(url, attempt);
        ResumeStep(url, net, retry, attempt);
        attempt := attempt + 1;
      }
      return NoResponse;
    }

    /**
     * `save_to_db`: nothing at all for empty data; otherwise connect, open a
     * cursor, send the statement with every record's values, then commit, or
     * roll back and re-raise when the database reports `failure`; the cursor is
     * closed either way.
     */
    method SaveToDb(table: string, data: seq<Record>, keys: seq<string>, failure: Option<string>)
      returns (outcome: SaveOutcome)
      modifies this`dbConn, this`connectionsOpened, this`dbLog
      ensures data == [] ==>
        (outcome == NothingToSave && dbLog == old(dbLog)
         && dbConn == old(dbConn) && connectionsOpened == old(connectionsOpened))
      ensures data != [] ==> dbConn.Some? && !dbConn.value.closed
      ensures data != [] && old(dbConn).Some? && !old(dbConn).value.closed ==>
        dbConn == old(dbConn) && connectionsOpened == old(connectionsOpened)
      ensures data != [] && (old(dbConn).None? || old(dbConn).value.closed) ==>
        connectionsOpened == old(connectionsOpened) + 1 && dbConn == Some(DbConn(connectionsOpened, false))
      ensures data != [] ==> dbLog == old(dbLog) + SaveEvents(table, data, keys, failure)
      ensures data != [] ==> outcome == if failure.None? then Saved(|data|) else SaveRaised(failure.value)
    {
      if data == [] {
        return NothingToSave;
      }
      var conn := ConnectDb();
      dbLog := dbLog + [CursorOpened];
      var columns := Keys(data[0]);
      var sql := InsertSql(table, columns);
      if keys != [] {
        sql := sql + ConflictClause(columns, keys);
      }
      assert sql == UpsertSql(table, columns, keys);
      dbLog := dbLog + [BatchExecuted(sql, AllValues(data))];
      if failure.None? {
        dbLog := dbLog + [Committed, CursorClosed];
        outcome := Saved(|data|);
      } else {
        dbLog := dbLog + [RolledBack, CursorClosed];
        outcome := SaveRaised(failure.value);
      }
    }
  }

  /** The events a non-empty save sends: cursor, batch, commit or rollback, cursor closed. */
  function SaveEvents(table: string, data: seq<Record>, keys: seq<string>, failure: Option<string>): seq<DbEvent>
    requires data != []
  {
    [CursorOpened, BatchExecuted(UpsertSql(table, Keys(data[0]), keys), AllValues(data))]
      + (if failure.None? then [Committed] else [RolledBack]) + [CursorClosed]
  }

  /** A run resumed after `n` failed attempts: their back-offs and requests come first. */
  function Resume(n: nat, rest: FetchRun): FetchRun
  {
    FetchRun(rest.result, Backoffs(n) + rest.delays, n + rest.attempts)
  }

  lemma RepeatSnoc(x: string, n: nat)
    ensures Repeat(x, n) + [x] == Repeat(x, n + 1)
  {
    assert Repeat(x, n + 1) == [x] + Repeat(x, n);
  }

  /** Moving past one failed, non-final attempt keeps the resumed run equal to the whole run. */
  lemma ResumeStep(url: string, net: Network, retry: int, attempt: nat)
    requires attempt < retry - 1 && AttemptFailure(net(url, attempt)).Some?
    ensures Resume(attempt, FetchFrom(url, net, retry, attempt)) ==
      Resume(attempt + 1, FetchFrom(url, net, retry, attempt + 1))
  {
    var rest := FetchFrom(url, net, retry, attempt + 1);
    assert Backoffs(attempt + 1) == Backoffs(attempt) + [Pow2(attempt)];
    assert Backoffs(attempt) + ([Pow2(attempt)] + rest.delays) == Backoffs(attempt + 1) + rest.delays;
  }

  // ---------------------------------------------------------------- properties of fetching

  /** With `retry` at most 0 no request is sent, nothing is slept, and the result is `None`. */
  lemma NoAttemptsWithoutRetry(url: string, net: Network, retry: int)
    requires retry <= 0
    ensures Fetch(url, net, retry) == FetchRun(NoResponse, [], 0)
  {
  }

  /** The loop never sends more than `retry` requests, and `None` comes only from a non-positive `retry`. */
  lemma {:induction false} AttemptsBounded(url: string, net: Network, retry: int, attempt: nat)
    requires attempt <= retry
    ensures FetchFrom(url, net, retry, attempt).attempts <= retry - attempt
    ensures FetchFrom(url, net, retry, attempt).result.NoResponse? ==> attempt >= retry
    decreases retry - attempt
  {
    if attempt < retry && AttemptFailure(net(url, attempt)).Some? && attempt != retry - 1 {
      AttemptsBounded(url, net, retry, attempt + 1);
    }
  }

  /**
   * A run from an attempt before the last ends in a response or a raised
   * failure, never in `None`: a response comes from a successful attempt and
   * is followed by one pacing sleep per attempt, and a failure is raised only
   * once every remaining attempt has been made, with one sleep fewer.
   */
  lemma {:induction false} RunShape(url: string, net: Network, retry: int, attempt: nat)
    requires attempt < retry
    ensures var r := FetchFrom(url, net, retry, attempt);
      && !r.result.NoResponse? && 1 <= r.attempts <= retry - attempt
      && (r.result.Fetched? ==> AttemptFailure(r.result.response).None? && |r.delays| == r.attempts)
      && (r.result.Raised? ==> r.attempts == retry - attempt && |r.delays| == r.attempts - 1)
    decreases retry - attempt
  {
    if AttemptFailure(net(url, attempt)).Some? && attempt != retry - 1 {
      RunShape(url, net, retry, attempt + 1);
    }
  }

  /**
   * When every attempt fails, all `retry` attempts are made, each but the last
   * is followed by its back-off, and the last failure is re-raised.
   */
  lemma {:induction false} AllAttemptsFail(url: string, net: Network, retry: int, attempt: nat)
    requires attempt < retry
    requires forall a: nat :: attempt <= a < retry ==> AttemptFailure(net(url, a)).Some?
    ensures var run := FetchFrom(url, net, retry, attempt);
      && run.result == Raised(AttemptFailure(net(url, retry - 1)).value)
      && run.attempts == retry - attempt
      && |run.delays| == retry - 1 - attempt
      && forall i :: 0 <= i < |run.delays| ==> run.delays[i] == Pow2(attempt + i)
    decreases retry - attempt
  {
    if attempt < retry - 1 {
      AllAttemptsFail(url, net, retry, attempt + 1);
      var rest := FetchFrom(url, net, retry, attempt + 1);
      var run := FetchFrom(url, net, retry, attempt);
      assert run.delays == [Pow2(attempt)] + rest.delays;
      forall i | 0 <= i < |run.delays| ensures run.delays[i] == Pow2(attempt + i) {
        if i > 0 {
          assert run.delays[i] == rest.delays[i - 1];
        }
      }
    }
  }

  /** Three failed attempts (the default `retry`): back-offs of 1 and 2 seconds, then the third failure is raised. */
  lemma ThreeFailures(url: string, net: Network)
    requires forall a: nat :: a < 3 ==> AttemptFailure(net(url, a)).Some?
    ensures Fetch(url, net, 3) == FetchRun(Raised(AttemptFailure(net(url, 2)).value), [1, 2], 3)
  {
    AllAttemptsFail(url, net, 3, 0);
    var d := Fetch(url, net, 3).delays;
    assert d[0] == Pow2(0) == 1 && d[1] == Pow2(1) == 2;
    assert d == [1, 2];
  }

  /**
   * When the first `k` attempts fail and attempt `k` (not past the last)
   * succeeds, the response is returned after the back-offs of the failures
   * and one pacing second.
   */
  lemma {:induction false} SucceedsAt(url: string, net: Network, retry: int, k: nat)
    requires k < retry
    requires forall a: nat :: a < k ==> AttemptFailure(net(url, a)).Some?
    requires AttemptFailure(net(url, k)).None?
    ensures Fetch(url, net, retry) == FetchRun(Fetched(net(url, k)), Backoffs(k) + [1], k + 1)
  {
    SucceedsFrom(url, net, retry, k, 0);
    assert Resume(0, FetchFrom(url, net, retry, 0)) == FetchFrom(url, net, retry, 0);
  }

  lemma {:induction false} SucceedsFrom(url: string, net: Network, retry: int, k: nat, attempt: nat)
    requires attempt <= k < retry
    requires forall a: nat :: a < k ==> AttemptFailure(net(url, a)).Some?
    requires AttemptFailure(net(url, k)).None?
    ensures Resume(attempt, FetchFrom(url, net, retry, attempt)) ==
      FetchRun(Fetched(net(url, k)), Backoffs(k) + [1], k + 1)
    decreases k - attempt
  {
    if attempt < k {
      ResumeStep(url, net, retry, attempt);
      SucceedsFrom(url, net, retry, k, attempt + 1);
    }
  }

  /** A 404 or a 503 is a failure; a 200, a redirect status or any status below 400 is a success. */
  lemma ErrorStatuses(body: string)
    ensures AttemptFailure(Response(404, body)) == Some(HttpStatusError(404))
    ensures AttemptFailure(Response(503, body)) == Some(HttpStatusError(503))
    ensures forall s :: s < 400 || s >= 600 ==> AttemptFailure(Response(s, body)).None?
  {
  }

  // ---------------------------------------------------------------- properties of the SQL

  /** Number of non-overlapping occurrences of `pat`, scanning left to right. */
  function Occurrences(s: string, pat: string): nat
    requires |pat| > 0
    decreases |s|
  {
    if |s| < |pat| then 0
    else if s[..|pat|] == pat then 1 + Occurrences(s[|pat|..], pat)
    else Occurrences(s[1..], pat)
  }

  /** The placeholder list holds exactly one "%s" per column. */
  lemma {:induction false} PlaceholderCount(n: nat)
    ensures Occurrences(Placeholders(n), "%s") == n
  {
    if n == 1 {
      assert Placeholders(1) == "%s";
    } else if n > 1 {
      PlaceholderCount(n - 1);
      var rest := Placeholders(n - 1);
      assert Repeat("%s", n)[1..] == Repeat("%s", n - 1);
      var s := "%s" + ", " + rest;
      assert Placeholders(n) == s;
      assert s[..2] == "%s" && s[2..] == ", " + rest;
      var t := ", " + rest;
      assert t[..2][0] != "%s"[0] && t[1..] == " " + rest;
      var u := " " + rest;
      assert u[0] == ' ';
      assert |u| >= 2 ==> u[..2][0] != "%s"[0];
      assert u[1..] == rest;
      assert Occurrences(u, "%s") == Occurrences(rest, "%s");
      assert Occurrences(t, "%s") == Occurrences(u, "%s");
      assert Occurrences(s, "%s") == 1 + Occurrences(t, "%s");
    }
  }

  /** A column is updated on conflict exactly when it is a column and not a conflict key. */
  lemma {:induction false} UpdateColumnsMembers(columns: seq<string>, keys: seq<string>)
    ensures forall c :: c in UpdateColumns(columns, keys) <==> c in columns && c !in keys
  {
    if columns != [] {
      var init := columns[..|columns| - 1];
      UpdateColumnsMembers(init, keys);
      assert columns == init + [columns[|columns| - 1]];
    }
  }

  /** No column is left to update when every column is a conflict key. */
  lemma {:induction false} UpdateColumnsAllKeys(columns: seq<string>, keys: seq<string>)
    requires forall c :: c in columns ==> c in keys
    ensures UpdateColumns(columns, keys) == []
  {
    if columns != [] {
      var init := columns[..|columns| - 1];
      assert forall c :: c in init ==> c in columns;
      UpdateColumnsAllKeys(init, keys);
      assert columns[|columns| - 1] in columns;
    }
  }

  /** The update list of a longer column list extends that of its prefix: column order is kept. */
  lemma {:induction false} UpdateColumnsAppend(a: seq<string>, b: seq<string>, keys: seq<string>)
    ensures UpdateColumns(a + b, keys) == UpdateColumns(a, keys) + UpdateColumns(b, keys)
  {
    if b != [] {
      UpdateColumnsAppend(a, b[..|b| - 1], keys);
      assert (a + b)[..|a + b| - 1] == a + b[..|b| - 1];
    } else {
      assert a + b == a;
    }
  }

  /** Without conflict keys the statement is the plain insert; with them it continues with the conflict clause. */
  lemma UpsertShape(table: string, columns: seq<string>, keys: seq<string>)
    ensures keys == [] ==> UpsertSql(table, columns, keys) == InsertSql(table, columns)
    ensures keys != [] ==> StartsWith(UpsertSql(table, columns, keys), InsertSql(table, columns))
  {
    var ins := InsertSql(table, columns);
    if keys != [] {
      assert (ins + ConflictClause(columns, keys))[..|ins|] == ins;
    } else {
      assert ins + "" == ins;
    }
  }

  /** When every column is a conflict key the statement ends with an empty "DO UPDATE SET ". */
  lemma AllKeysLeaveEmptySet(table: string, columns: seq<string>, keys: seq<string>)
    requires keys != [] && forall c :: c in columns ==> c in keys
    ensures var sql := UpsertSql(table, columns, keys);
      |sql| >= 14 && sql[|sql| - 14..] == "DO UPDATE SET "
  {
    UpdateColumnsAllKeys(columns, keys);
    assert Assignments(UpdateColumns(columns, keys)) == [];
  }

  /** A failing batch is rolled back and closed, never committed; a good one is committed and closed. */
  lemma SaveEventsShape(table: string, data: seq<Record>, keys: seq<string>, failure: Option<string>)
    requires data != []
    ensures var ev := SaveEvents(table, data, keys, failure);
      && |ev| == 4 && ev[0] == CursorOpened && ev[3] == CursorClosed
      && (failure.None? <==> Committed in ev)
      && (failure.Some? <==> RolledBack in ev)
  {
    var ev := SaveEvents(table, data, keys, failure);
    assert ev[2] == if failure.None? then Committed else RolledBack;
  }
}
