/**
 * The database as the executors see it through JDBC: column metadata, the
 * values a result set yields, a forward-only cursor over its rows, and an
 * oracle standing for `Statement.executeQuery` / `Statement.executeUpdate`.
 */
module Jdbc {
  import opened Results
  import Dates
  import Decimal

  /** A value `ResultSet.getObject` can return. */
  datatype Cell =
    | Null
    | Int(value: int)
    | Str(text: string)
    | Bool(flag: bool)
    | Date(date: Dates.Date)
    | Opaque(repr: string)   // DECIMAL, DOUBLE, TIMESTAMP, ...: carried along, never computed with

  /** `ResultSetMetaData.getColumnName(i)` and `getColumnTypeName(i)`. */
  datatype Column = Column(name: string, typeName: string)

  predicate IsDateColumn(c: Column) { c.typeName == "DATE" }

  /**
   * What the driver guarantees of every result set: each row has one value
   * per column, and a DATE column holds dates or SQL NULL.
   */
  predicate WellFormed(meta: seq<Column>, rows: seq<seq<Cell>>) {
    forall k :: 0 <= k < |rows| ==>
      |rows[k]| == |meta| &&
      forall i :: 0 <= i < |meta| && IsDateColumn(meta[i]) ==> rows[k][i].Null? || rows[k][i].Date?
  }

  datatype RawTable = RawTable(meta: seq<Column>, rows: seq<seq<Cell>>)

  /** The complete answer of one query: its metadata and its rows in cursor order. */
  type Table = t: RawTable | WellFormed(t.meta, t.rows) witness RawTable([], [])

  /** Java's `int`, the type of `executeUpdate`'s affected-row count. */
  type Int32 = n: int | -0x8000_0000 <= n < 0x8000_0000

  /**
   * The database at the moment of one call. `connectionFailure` is the message
   * of the SQLException raised while obtaining a connection or creating a
   * statement; `query` and `update` answer `executeQuery` and `executeUpdate`
   * for a SQL text, with the SQLException message on failure.
   */
  datatype Database = Database(
    connectionFailure: Option<string>,
    query: string -> Result<Table, string>,
    update: string -> Result<Int32, string>)

  /** Why an executor call fails; no result is built on any failure. */
  datatype Failure =
    | SqlException(message: string)
    | NullPointer   // a NULL in a DATE column: `rs.getDate(i).toLocalDate()` dereferences null

  /** `getColumnName(1..n)` in positional order, duplicates kept verbatim. */
  function ColumnNames(meta: seq<Column>): seq<string> {
    seq(|meta|, i requires 0 <= i < |meta| => meta[i].name)
  }

  /**
   * H2's `getString` of a value: None for SQL NULL, decimal digits for integers,
   * TRUE/FALSE for booleans, ISO `yyyy-MM-dd` for dates.
   */
  function StringValue(c: Cell): Option<string> {
    match c
    case Null => None
    case Int(v) => Some(Decimal.IntToString(v))
    case Str(s) => Some(s)
    case Bool(b) => Some(if b then "TRUE" else "FALSE")
    case Date(d) => Some(Dates.ToIsoString(d))
    case Opaque(r) => Some(r)
  }

  /** A forward-only JDBC `ResultSet` over a table. */
  class ResultSet {
    const table: Table
    /** 0 before the first row, k while on row k (1-based, like `getRow`), |rows| + 1 after the last. */
    var position: nat

    ghost predicate Valid()
      reads this
    {
      position <= |table.rows| + 1
    }

    predicate OnRow()
      reads this
    {
      1 <= position <= |table.rows|
    }

    constructor (t: Table)
      ensures table == t && position == 0 && Valid()
    {
      table := t;
      position := 0;
    }

    /** `ResultSet.next`: move to the following row and say whether there is one. */
    method Next() returns (more: bool)
      requires Valid()
      modifies this
      ensures Valid()
      ensures position == if old(position) <= |table.rows| then old(position) + 1 else old(position)
      ensures more <==> OnRow()
      ensures more <==> old(position) < |table.rows|
    {
      if position <= |table.rows| {
        position := position + 1;
      }
      more := position <= |table.rows|;
    }

    function ColumnCount(): nat {
      |table.meta|
    }

    function ColumnName(i: nat): string
      requires 1 <= i <= ColumnCount()
    {
      table.meta[i - 1].name
    }

    function ColumnTypeName(i: nat): string
      requires 1 <= i <= ColumnCount()
    {
      table.meta[i - 1].typeName
    }

    /** `getObject(i)` on the current row. */
    function GetObject(i: nat): Cell
      reads this
      requires OnRow() && 1 <= i <= ColumnCount()
    {
      table.rows[position - 1][i - 1]
    }

    /** `getString(i)` on the current row: None for SQL NULL. */
    function GetString(i: nat): Option<string>
      reads this
      requires OnRow() && 1 <= i <= ColumnCount()
    {
      StringValue(GetObject(i))
    }

    /** `getDate(i)` on a DATE column of the current row: the date, or None for SQL NULL. */
    function GetDate(i: nat): Option<Dates.Date>
      reads this
      requires OnRow() && 1 <= i <= ColumnCount() && ColumnTypeName(i) == "DATE"
    {
      match GetObject(i)
      case Date(d) => Some(d)
      case _ => None
    }
  }
}
