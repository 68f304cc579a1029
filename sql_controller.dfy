/**
 * `SqlController`: its own copy of `executeQuery` (cells passed through
 * unchanged, `totalRows` set from the row list, timing rendered as text) and
 * the branch decisions of the `/api/query` handler.
 */
module SqlController {
  import opened Results
  import opened Jdbc
  import opened Statements
  import opened JavaStrings
  import Decimal

  /** `SqlController.QueryResult`. */
  datatype QueryResult = QueryResult(columns: seq<string>, rows: seq<seq<Cell>>, totalRows: int, executionTime: string)

  /** The `QueryResult(columns, rows, executionTime)` constructor, which sets `totalRows = rows.size()`. */
  function NewQueryResult(columns: seq<string>, rows: seq<seq<Cell>>, executionTime: string): QueryResult {
    QueryResult(columns, rows, |rows|, executionTime)
  }

  /** `executionTime + "ms"` for a `long` executionTime. */
  function ElapsedText(elapsedMs: int): string {
    Decimal.IntToString(elapsedMs) + "ms"
  }

  /** The timing text is the decimal elapsed time followed by `ms`, and the number reads back. */
  lemma ElapsedTextRoundTrip(elapsedMs: int)
    ensures var s := ElapsedText(elapsedMs);
            |s| >= 3 && s[|s| - 2..] == "ms" && Decimal.ParseInt(s[..|s| - 2]) == Some(elapsedMs)
  {
    var digits := Decimal.IntToString(elapsedMs);
    Decimal.IntToStringRoundTrip(elapsedMs);
    Decimal.NatToStringRoundTrip(if elapsedMs < 0 then -elapsedMs else elapsedMs);
    var s := ElapsedText(elapsedMs);
    assert s[..|s| - 2] == digits;
    assert s[|s| - 2..] == "ms";
  }

  /**
   * The outcome of this copy of `executeQuery(sql)`; a failure carries the
   * SQLException message.
   */
  function Execute(db: Database, sql: string, elapsedMs: int): Result<QueryResult, string> {
    if db.connectionFailure.Some? then Err(db.connectionFailure.value)
    else if IsRead(sql) then
      match db.query(sql)
      case Err(m) => Err(m)
      case Ok(t) => Ok(NewQueryResult(ColumnNames(t.meta), t.rows, ElapsedText(elapsedMs)))
    else
      match db.update(sql)
      case Err(m) => Err(m)
      case Ok(n) => Ok(NewQueryResult(["rows_affected"], [[Int(n)]], ElapsedText(elapsedMs)))
  }

  /**
   * What this `executeQuery` returns on each path: every result counts its own
   * rows and carries the timing text; a read passes the driver's columns and
   * values through unchanged; any other statement yields a one-cell table whose
   * `totalRows` is 1, whatever the affected-row count.
   */
  lemma ExecuteOutcomes(db: Database, sql: string, elapsedMs: int)
    ensures var r := Execute(db, sql, elapsedMs);
      r.Ok? ==> r.value.totalRows == |r.value.rows| && r.value.executionTime == ElapsedText(elapsedMs)
    ensures var r := Execute(db, sql, elapsedMs);
      r.Ok? ==> forall k :: 0 <= k < |r.value.rows| ==> |r.value.rows[k]| == |r.value.columns|
    ensures db.connectionFailure.Some? ==> Execute(db, sql, elapsedMs) == Err(db.connectionFailure.value)
    ensures db.connectionFailure.None? && IsRead(sql) ==>
      var r := Execute(db, sql, elapsedMs);
      match db.query(sql)
      case Err(m) => r == Err(m)
      case Ok(t) => r.Ok? && r.value.columns == ColumnNames(t.meta) && r.value.rows == t.rows
    ensures db.connectionFailure.None? && !IsRead(sql) ==>
      var r := Execute(db, sql, elapsedMs);
      match db.update(sql)
      case Err(m) => r == Err(m)
      case Ok(n) => r.Ok? && r.value.columns == ["rows_affected"] && r.value.rows == [[Int(n)]]
                    && r.value.totalRows == 1
  {
  }

  /** `getColumnName(1..n)` collected by the metadata loop. */
  method ReadColumnNames(rs: ResultSet) returns (columns: seq<string>)
    ensures columns == ColumnNames(rs.table.meta)
  {
    var columnCount := rs.ColumnCount();
    columns := [];
    var i := 1;
    while i <= columnCount
      invariant 1 <= i <= columnCount + 1
      invariant columns == ColumnNames(rs.table.meta)[..i - 1]
    {
      columns := columns + [rs.ColumnName(i)];
      i := i + 1;
    }
  }

  /** The per-column loop on the current row: `getObject(1..n)`. */
  method CopyCurrentRow(rs: ResultSet) returns (row: seq<Cell>)
    requires rs.OnRow()
    ensures row == rs.table.rows[rs.position - 1]
  {
    ghost var raw := rs.table.rows[rs.position - 1];
    var columnCount := rs.ColumnCount();
    row := [];
    var i := 1;
    while i <= columnCount
      invariant 1 <= i <= columnCount + 1
      invariant row == raw[..i - 1]
    {
      row := row + [rs.GetObject(i)];
      i := i + 1;
    }
    assert row == raw;
  }

  /** `executeQuery`: the metadata loop, then `while (rs.next())` copying `getObject(1..n)`. */
  method ExecuteQuery(db: Database, sql: string, elapsedMs: int) returns (r: Result<QueryResult, string>)
    ensures r == Execute(db, sql, elapsedMs)
  {
    if db.connectionFailure.Some? {
      return Err(db.connectionFailure.value);
    }
    if !IsRead(sql) {
      var update := db.update(sql);
      if update.Err? {
        return Err(update.error);
      }
      var rowsAffected := update.value;
      return Ok(NewQueryResult(["rows_affected"], [[Int(rowsAffected)]], ElapsedText(elapsedMs)));
    }
    var query := db.query(sql);
    if query.Err? {
      return Err(query.error);
    }
    var t := query.value;
    var rs := new ResultSet(t);
    var columns := ReadColumnNames(rs);

    var rows: seq<seq<Cell>> := [];
    while true
      invariant rs.Valid() && rs.table == t
      invariant rs.position == |rows| <= |t.rows|
      invariant rows == t.rows[..|rows|]
      decreases |t.rows| - |rows|
    {
      var more := rs.Next();
      if !more {
        break;
      }
      var row := CopyCurrentRow(rs);
      rows := rows + [row];
    }
    assert rows == t.rows;
    return Ok(NewQueryResult(columns, rows, ElapsedText(elapsedMs)));
  }

  /** `ApiResponse<T>` without its wall-clock timestamp. */
  datatype ApiResponse<T> = ApiResponse(success: bool, data: Option<T>, message: string)

  /** `ApiResponse.success(data)`. */
  function Success<T>(data: T): ApiResponse<T> {
    ApiResponse(true, Some(data), "Success")
  }

  /** `ApiResponse.error(message)`: no data. */
  function Error<T>(message: string): ApiResponse<T> {
    ApiResponse(false, None, message)
  }

  datatype HttpResponse = HttpResponse(status: int, body: ApiResponse<QueryResult>)

  /** The `sql` member of the decoded body, as `request.get("sql")` sees it. */
  datatype JsonField =
    | JsonNull
    | JsonString(text: string)
    | JsonOther(castMessage: string)   // a number, object, ...: the cast to String throws ClassCastException

  /**
   * The request body after `readRequestBody` and `objectMapper.readValue`:
   * the decoded map, or the message of the exception reading or decoding it.
   */
  datatype RequestBody = Unreadable(message: string) | Fields(fields: map<string, JsonField>)

  /** What the handler does before any SQL runs: answer at once, or execute this text. */
  datatype Decision = Answer(status: int, message: string) | Proceed(sql: string)

  predicate SqlMissingOrBlank(body: RequestBody) {
    body.Fields? &&
    ("sql" !in body.fields || body.fields["sql"].JsonNull? ||
     (body.fields["sql"].JsonString? && Trim(body.fields["sql"].text) == ""))
  }

  /** The guard of `handleCustomQuery`, up to the call of `executeQuery`. */
  function Decide(httpMethod: string, body: RequestBody): (d: Decision)
    ensures httpMethod != "POST" ==> d == Answer(405, "Method not allowed")
    ensures d == Answer(400, "SQL query is required") <==> httpMethod == "POST" && SqlMissingOrBlank(body)
    ensures d.Proceed? <==>
      httpMethod == "POST" && body.Fields? && "sql" in body.fields && body.fields["sql"].JsonString?
      && Trim(body.fields["sql"].text) != ""
    ensures d.Proceed? ==> d.sql == body.fields["sql"].text
    ensures d.Answer? ==> d.status in {400, 405, 500}
    ensures d.Answer? && d.status == 500 ==> StartsWith(d.message, "Query error: ")
  {
    if httpMethod != "POST" then Answer(405, "Method not allowed")
    else match body
      case Unreadable(m) => Answer(500, "Query error: " + m)
      case Fields(f) =>
        if "sql" !in f || f["sql"].JsonNull? then Answer(400, "SQL query is required")
        else match f["sql"]
          case JsonOther(m) => Answer(500, "Query error: " + m)
          case JsonString(s) => if Trim(s) == "" then Answer(400, "SQL query is required") else Proceed(s)
  }

  /**
   * `handleCustomQuery` without the HTTP plumbing: `executeQuery` runs only when
   * the guard lets the request through, and its exception becomes a 500.
   */
  method HandleCustomQuery(httpMethod: string, body: RequestBody, db: Database, elapsedMs: int)
    returns (resp: HttpResponse)
    ensures Decide(httpMethod, body).Answer? ==>
      resp == HttpResponse(Decide(httpMethod, body).status, Error(Decide(httpMethod, body).message))
    ensures Decide(httpMethod, body).Proceed? ==>
      match Execute(db, Decide(httpMethod, body).sql, elapsedMs)
      case Ok(q) => resp == HttpResponse(200, Success(q))
      case Err(m) => resp == HttpResponse(500, Error("Query error: " + m))
    ensures resp.status == 200 <==> resp.body.success
    ensures resp.body.success <==> resp.body.data.Some?
    ensures resp.body.success ==> resp.body.message == "Success"
    ensures resp.status in {200, 400, 405, 500}
  {
    var decision := Decide(httpMethod, body);
    match decision
    case Answer(status, message) =>
      resp := HttpResponse(status, Error(message));
    case Proceed(sql) =>
      var result := ExecuteQuery(db, sql, elapsedMs);
      match result
      case Ok(q) => resp := HttpResponse(200, Success(q));
      case Err(m) => resp := HttpResponse(500, Error("Query error: " + m));
  }
}
