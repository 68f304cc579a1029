/**
 * `RootDataRepo.executeQuery`: run any SQL text and return a uniform table.
 * Reads are shaped from the cursor with DATE values turned into ISO-8601
 * strings; everything else goes through `executeUpdate` and reports the
 * affected-row count as a one-cell table.
 */
module RootDataRepo {
  import opened Results
  import opened Jdbc
  import opened Statements
  import Dates

  /** `SqlQueryResult` as the builder fills it. */
  datatype SqlQueryResult = SqlQueryResult(columns: seq<string>, rows: seq<seq<Cell>>, count: int, execTimeMs: int)

  /** A SQL NULL in a DATE column, on which `getDate(i).toLocalDate()` throws. */
  predicate NullDate(col: Column, c: Cell) {
    IsDateColumn(col) && c.Null?
  }

  predicate RowHasNullDate(meta: seq<Column>, raw: seq<Cell>)
    requires |raw| == |meta|
  {
    exists i :: 0 <= i < |meta| && NullDate(meta[i], raw[i])
  }

  predicate HasNullDate(t: Table) {
    exists k :: 0 <= k < |t.rows| && RowHasNullDate(t.meta, t.rows[k])
  }

  /** The value one cell contributes: a DATE becomes its `LocalDate.toString` text, anything else is kept. */
  function Normalize(col: Column, c: Cell): Cell {
    if IsDateColumn(col) && c.Date? then Str(Dates.ToIsoString(c.date)) else c
  }

  function ShapeRow(meta: seq<Column>, raw: seq<Cell>): seq<Cell>
    requires |raw| == |meta|
  {
    seq(|meta|, i requires 0 <= i < |meta| => Normalize(meta[i], raw[i]))
  }

  function Shape(t: Table): seq<seq<Cell>> {
    seq(|t.rows|, k requires 0 <= k < |t.rows| => ShapeRow(t.meta, t.rows[k]))
  }

  /** What a read result built from table `t` promises. */
  predicate ShapedFrom(t: Table, res: SqlQueryResult) {
    && res.columns == ColumnNames(t.meta)
    && |res.rows| == |t.rows|
    && res.count == |res.rows|
    && (forall k :: 0 <= k < |res.rows| ==> |res.rows[k]| == |res.columns|)
    && (forall k, i :: 0 <= k < |res.rows| && 0 <= i < |t.meta| && !IsDateColumn(t.meta[i]) ==>
          res.rows[k][i] == t.rows[k][i])
    && (forall k, i :: 0 <= k < |res.rows| && 0 <= i < |t.meta| && IsDateColumn(t.meta[i]) ==>
          t.rows[k][i].Date? && res.rows[k][i] == Str(Dates.ToIsoString(t.rows[k][i].date)))
  }

  /**
   * The outcome of `executeQuery(sql)` against `db`, when the clock advanced
   * by `elapsedMs` during the call.
   */
  function Execute(db: Database, sql: string, elapsedMs: int): Result<SqlQueryResult, Failure> {
    if db.connectionFailure.Some? then Err(SqlException(db.connectionFailure.value))
    else if IsRead(sql) then
      match db.query(sql)
      case Err(m) => Err(SqlException(m))
      case Ok(t) =>
        if HasNullDate(t) then Err(NullPointer)
        else
          var rows := Shape(t);
          Ok(SqlQueryResult(ColumnNames(t.meta), rows, |rows|, elapsedMs))
    else
      match db.update(sql)
      case Err(m) => Err(SqlException(m))
      case Ok(n) => Ok(SqlQueryResult(["rows_affected"], [[Int(n)]], n, elapsedMs))
  }

  /**
   * What `executeQuery` returns on each path: a connection failure or a
   * driver error surfaces as its SQLException; a read fails with a
   * NullPointerException exactly when some DATE value is NULL and otherwise
   * yields the shaped table; any other statement yields its affected-row count
   * as a one-cell table.
   */
  lemma ExecuteOutcomes(db: Database, sql: string, elapsedMs: int)
    ensures db.connectionFailure.Some? ==>
      Execute(db, sql, elapsedMs) == Err(SqlException(db.connectionFailure.value))
    ensures db.connectionFailure.None? && IsRead(sql) ==>
      var r := Execute(db, sql, elapsedMs);
      match db.query(sql)
      case Err(m) => r == Err(SqlException(m))
      case Ok(t) =>
        (r == Err(NullPointer) <==> HasNullDate(t)) &&
        (r.Ok? <==> !HasNullDate(t)) &&
        (r.Ok? ==> ShapedFrom(t, r.value) && r.value.execTimeMs == elapsedMs)
    ensures db.connectionFailure.None? && !IsRead(sql) ==>
      var r := Execute(db, sql, elapsedMs);
      match db.update(sql)
      case Err(m) => r == Err(SqlException(m))
      case Ok(n) => r.Ok? && r.value.columns == ["rows_affected"] && r.value.rows == [[Int(n)]]
                    && r.value.count == n && r.value.execTimeMs == elapsedMs
  {
  }

  lemma ShapeRowPrefix(meta: seq<Column>, raw: seq<Cell>, i: nat, cells: seq<Cell>)
    requires |raw| == |meta| && 0 < i <= |meta| && cells == ShapeRow(meta, raw)[..i - 1]
    ensures cells + [Normalize(meta[i - 1], raw[i - 1])] == ShapeRow(meta, raw)[..i]
  {
    var full := ShapeRow(meta, raw);
    assert full[..i] == full[..i - 1] + [full[i - 1]];
  }

  /** `getColumnName(1..n)` collected by the metadata loop. */
  method ReadColumnNames(rs: ResultSet) returns (columns: seq<string>)
    ensures columns == ColumnNames(rs.table.meta)
  {
    var columnCount := rs.ColumnCount();
    columns := [];
    var i := 1;
    while i <= columnCount
      invariant 1 <= i <= columnCount + 1
      invariant columns == ColumnNames(rs.table.meta)[..i - 1]
    {
      columns := columns + [rs.ColumnName(i)];
      i := i + 1;
    }
  }

  /**
   * One pass of the per-column loop: `getDate(i).toLocalDate().toString()` on
   * a DATE column, which fails on NULL, and `getObject(i)` on any other.
   */
  method ShapeCell(rs: ResultSet, i: nat) returns (cell: Option<Cell>)
    requires rs.OnRow() && 1 <= i <= rs.ColumnCount()
    ensures var col, raw := rs.table.meta[i - 1], rs.table.rows[rs.position - 1][i - 1];
      (cell.None? <==> NullDate(col, raw)) && (cell.Some? ==> cell.value == Normalize(col, raw))
  {
    if rs.ColumnTypeName(i) == "DATE" {
      var date := rs.GetDate(i);
      if date.None? {
        return None;
      }
      return Some(Str(Dates.ToIsoString(date.value)));
    }
    return Some(rs.GetObject(i));
  }

  /**
   * The per-column loop on the current row: None when `getDate(i).toLocalDate()`
   * meets a NULL, otherwise the shaped row.
   */
  method ShapeCurrentRow(rs: ResultSet) returns (row: Option<seq<Cell>>)
    requires rs.OnRow()
    ensures var raw := rs.table.rows[rs.position - 1];
      (row.None? <==> RowHasNullDate(rs.table.meta, raw)) &&
      (row.Some? ==> row.value == ShapeRow(rs.table.meta, raw))
  {
    ghost var meta := rs.table.meta;
    ghost var raw := rs.table.rows[rs.position - 1];
    var columnCount := rs.ColumnCount();
    var cells: seq<Cell> := [];
    var i := 1;
    while i <= columnCount
      invariant 1 <= i <= columnCount + 1
      invariant cells == ShapeRow(meta, raw)[..i - 1]
      invariant forall j :: 0 <= j < i - 1 ==> !NullDate(meta[j], raw[j])
    {
      var cell := ShapeCell(rs, i);
      if cell.None? {
        return None;
      }
      ShapeRowPrefix(meta, raw, i, cells);
      cells := cells + [cell.value];
      i := i + 1;
    }
    assert cells == ShapeRow(meta, raw);
    return Some(cells);
  }

  /** `executeQuery`: the metadata loop, then the `while (rs.next())` loop with its per-column loop. */
  method ExecuteQuery(db: Database, sql: string, elapsedMs: int) returns (r: Result<SqlQueryResult, Failure>)
    ensures r == Execute(db, sql, elapsedMs)
  {
    if db.connectionFailure.Some? {
      return Err(SqlException(db.connectionFailure.value));
    }
    if !IsRead(sql) {
      var update := db.update(sql);
      if update.Err? {
        return Err(SqlException(update.error));
      }
      var rowsAffected := update.value;
      return Ok(SqlQueryResult(["rows_affected"], [[Int(rowsAffected)]], rowsAffected, elapsedMs));
    }
    var query := db.query(sql);
    if query.Err? {
      return Err(SqlException(query.error));
    }
    var t := query.value;
    var rs := new ResultSet(t);
    var columns := ReadColumnNames(rs);

    var rows: seq<seq<Cell>> := [];
    while true
      invariant rs.Valid() && rs.table == t
      invariant rs.position == |rows| <= |t.rows|
      invariant rows == Shape(t)[..|rows|]
      invariant forall k :: 0 <= k < |rows| ==> !RowHasNullDate(t.meta, t.rows[k])
      decreases |t.rows| - |rows|
    {
      var more := rs.Next();
      if !more {
        break;
      }
      var row := ShapeCurrentRow(rs);
      if row.None? {
        assert RowHasNullDate(t.meta, t.rows[|rows|]);
        return Err(NullPointer);
      }
      rows := rows + [row.value];
    }
    assert rows == Shape(t);
    return Ok(SqlQueryResult(columns, rows, |rows|, elapsedMs));
  }

  /**
   * Every value of a DATE column in a successful read is a string; for years
   * 0 to 9999 it is a ten-character `yyyy-MM-dd` text that reads back as the
   * stored date.
   */
  lemma DateCellsAreIsoStrings(db: Database, sql: string, elapsedMs: int, k: nat, i: nat)
    requires db.connectionFailure.None? && IsRead(sql) && db.query(sql).Ok?
    requires Execute(db, sql, elapsedMs).Ok?
    requires k < |db.query(sql).value.rows| && i < |db.query(sql).value.meta|
    requires IsDateColumn(db.query(sql).value.meta[i])
    ensures var t := db.query(sql).value;
            var cell := Execute(db, sql, elapsedMs).value.rows[k][i];
            cell.Str? && t.rows[k][i].Date? &&
            (0 <= t.rows[k][i].date.year <= 9999 ==>
               Dates.IsIsoShaped(cell.text) && Dates.ParseIsoDate(cell.text) == Some(t.rows[k][i].date))
  {
    ExecuteOutcomes(db, sql, elapsedMs);
    var t := db.query(sql).value;
    var d := t.rows[k][i].date;
    if 0 <= d.year <= 9999 {
      Dates.IsoStringRoundTrip(d);
    }
  }
}
