/**
 * The browser-side `DatabaseSimulator` of the learning page: the dispatcher
 * that sends a query to the selected store, the simulated NoSQL document
 * store and key-value cache, and the HTML renderer of a `{columns, rows}`
 * table.
 */
module DatabaseSimulator {
  import opened Results
  import opened JavaStrings
  import Decimal

  /**
   * The JavaScript values the simulator handles. A number is kept as the text
   * `Number.prototype.toString` gives it; `JsBuiltin(name)` is a member every
   * object inherits from `Object.prototype` (a native function, the `Object`
   * function itself for `constructor`, or the prototype itself for `__proto__`).
   */
  datatype JsValue =
    | JsUndefined
    | JsNull
    | JsBool(b: bool)
    | JsNumber(text: string)
    | JsString(s: string)
    | JsArray(items: seq<JsValue>)
    | JsObject(fields: seq<(string, JsValue)>)
    | JsBuiltin(name: string)

  /** JavaScript truthiness: `undefined`, `null`, `false`, `0`, `NaN` and `""` are falsy. */
  predicate Truthy(v: JsValue) {
    match v
    case JsUndefined => false
    case JsNull => false
    case JsBool(b) => b
    case JsNumber(t) => t != "0" && t != "NaN"
    case JsString(s) => s != ""
    case _ => true
  }

  /** The string a template literal `${v}` produces. */
  function Text(v: JsValue): string {
    match v
    case JsUndefined => "undefined"
    case JsNull => "null"
    case JsBool(b) => if b then "true" else "false"
    case JsNumber(t) => t
    case JsString(s) => s
    case JsArray(items) =>
      Join(seq(|items|, i requires 0 <= i < |items| =>
        if items[i].JsUndefined? || items[i].JsNull? then "" else Text(items[i])))
    case JsObject(_) => "[object Object]"
    case JsBuiltin(name) =>
      if name == "__proto__" then "[object Object]"
      else if name == "constructor" then "function Object() { [native code] }"
      else "function " + name + "() { [native code] }"
  }

  /** `Array.prototype.join` with the default `,` separator. */
  function Join(parts: seq<string>): string {
    if |parts| == 0 then ""
    else if |parts| == 1 then parts[0]
    else Join(parts[..|parts| - 1]) + "," + parts[|parts| - 1]
  }

  // ---------------------------------------------------------------------------
  // String.prototype.trim

  /** The characters JavaScript's `trim` removes: white space and line terminators. */
  predicate IsJsSpace(c: char) {
    c == '\t' || c == '\n' || c == '\U{000B}' || c == '\U{000C}' || c == '\r' || c == ' '
    || c == '\U{00A0}' || c == '\U{1680}' || '\U{2000}' <= c <= '\U{200A}'
    || c == '\U{2028}' || c == '\U{2029}' || c == '\U{202F}' || c == '\U{205F}'
    || c == '\U{3000}' || c == '\U{FEFF}'
  }

  function JsTrimStart(s: string): string {
    if |s| > 0 && IsJsSpace(s[0]) then JsTrimStart(s[1..]) else s
  }

  function JsTrimEnd(s: string): string {
    if |s| > 0 && IsJsSpace(s[|s| - 1]) then JsTrimEnd(s[..|s| - 1]) else s
  }

  /** `String.prototype.trim`. */
  function JsTrim(s: string): string { JsTrimEnd(JsTrimStart(s)) }

  lemma {:induction false} JsTrimStartFirst(s: string)
    ensures |JsTrimStart(s)| > 0 ==> !IsJsSpace(JsTrimStart(s)[0])
  {
    if |s| > 0 && IsJsSpace(s[0]) {
      JsTrimStartFirst(s[1..]);
    }
  }

  lemma {:induction false} JsTrimEndShape(s: string)
    ensures |JsTrimEnd(s)| <= |s| && JsTrimEnd(s) == s[..|JsTrimEnd(s)|]
    ensures |JsTrimEnd(s)| > 0 ==> !IsJsSpace(JsTrimEnd(s)[|JsTrimEnd(s)| - 1])
  {
    if |s| > 0 && IsJsSpace(s[|s| - 1]) {
      JsTrimEndShape(s[..|s| - 1]);
    }
  }

  /** What `trim` returns neither starts nor ends with white space, so trimming it again changes nothing. */
  lemma JsTrimIdempotent(s: string)
    ensures var t := JsTrim(s); |t| > 0 ==> !IsJsSpace(t[0]) && !IsJsSpace(t[|t| - 1])
    ensures JsTrim(JsTrim(s)) == JsTrim(s)
  {
    var u := JsTrimStart(s);
    JsTrimStartFirst(s);
    JsTrimEndShape(u);
    var t := JsTrim(s);
    if |t| > 0 {
      assert t[0] == u[0];
      assert JsTrimStart(t) == t;
      assert JsTrimEnd(t) == t;
    }
  }

  // ---------------------------------------------------------------------------
  // The stores

  /**
   * The own enumerable properties of a plain object, or the entries of a `Map`,
   * in the order `Object.keys` (or the map's iteration) lists them.
   */
  type Entries = seq<(string, JsValue)>

  function Keys(e: Entries): (keys: seq<string>)
    ensures |keys| == |e| && forall i :: 0 <= i < |e| ==> keys[i] == e[i].0
  {
    seq(|e|, i requires 0 <= i < |e| => e[i].0)
  }

  /** Property names, like map keys, occur once. */
  predicate DistinctKeys(e: Entries) {
    forall i, j :: 0 <= i < j < |e| ==> e[i].0 != e[j].0
  }

  /** The value stored under `key` (`obj.hasOwnProperty(key)` / `map.has(key)` and the read that follows). */
  function Lookup(e: Entries, key: string): (r: Option<JsValue>)
    ensures r.Some? <==> exists i :: 0 <= i < |e| && e[i].0 == key
    ensures r.Some? ==> exists i :: 0 <= i < |e| && e[i] == (key, r.value)
  {
    if |e| == 0 then None
    else if e[0].0 == key then Some(e[0].1)
    else
      var r := Lookup(e[1..], key);
      assert forall i :: 0 < i < |e| ==> e[i] == e[1..][i - 1];
      assert r.Some? ==> exists i :: 0 <= i < |e[1..]| && e[1..][i] == (key, r.value);
      r
  }

  /** Under distinct keys the lookup of an entry's key finds that entry's value. */
  lemma {:induction false} LookupEntry(e: Entries, i: nat)
    requires DistinctKeys(e) && i < |e|
    ensures Lookup(e, e[i].0) == Some(e[i].1)
  {
    if i > 0 {
      assert e[0].0 != e[i].0;
      assert e[1..][i - 1] == e[i];
      LookupEntry(e[1..], i - 1);
    }
  }

  /** The names every plain object inherits from `Object.prototype`. */
  predicate IsPrototypeMember(name: string) {
    name == "constructor" || name == "__proto__" || name == "hasOwnProperty"
    || name == "isPrototypeOf" || name == "propertyIsEnumerable"
    || name == "toString" || name == "toLocaleString" || name == "valueOf"
    || name == "__defineGetter__" || name == "__defineSetter__"
    || name == "__lookupGetter__" || name == "__lookupSetter__"
  }

  /** Property access `obj[key]` on a plain object: own properties first, then the inherited members. */
  function PropertyOf(e: Entries, key: string): JsValue {
    match Lookup(e, key)
    case Some(v) => v
    case None => if IsPrototypeMember(key) then JsBuiltin(key) else JsUndefined
  }

  /** What `processQuery` returns when it does not throw. */
  datatype Reply =
    | Stored(message: string)     // `{type: 'success', message}`
    | KeyList(keys: seq<string>)  // `{type: 'list', data}`
    | Document(doc: JsValue)      // `{type: 'document', data}`
    | Cached(value: JsValue)      // `{type: 'cache', data}`
    | SqlRequest(query: string)   // the POST of `{sql: query}` to the query endpoint

  const NoSqlStored := "Data stored successfully (simulated)"
  const NoSqlMissing := "Key not found in NoSQL store"
  const CacheStored := "Cache value set successfully (simulated)"
  const CacheMissing := "Cache key not found"
  const UnknownDatabase := "Unknown database type"

  /** The `KEYS *` command does not begin with `SET `. */
  lemma KeysIsNotSet()
    ensures !StartsWith("KEYS *", "SET ")
  {
    assert "KEYS *"[..4][0] == 'K';
  }

  /**
   * `processNoSQLQuery` as written: the document is read with `data[key]`,
   * which also finds the members inherited from `Object.prototype`.
   */
  function ProcessNoSqlQueryAsWritten(data: Entries, query: string): Result<Reply, string> {
    var key := JsTrim(query);
    if StartsWith(key, "SET ") then Ok(Stored(NoSqlStored))
    else if key == "KEYS *" then Ok(KeyList(Keys(data)))
    else if Truthy(PropertyOf(data, key)) then Ok(Document(PropertyOf(data, key)))
    else Err(NoSqlMissing)
  }

  /**
   * `processNoSQLQuery`, serving only the documents the store holds: a `SET `
   * command is acknowledged without storing anything, `KEYS *` lists the
   * keys, a stored key with a truthy document returns it, and anything else
   * is an error.
   */
  function ProcessNoSqlQuery(data: Entries, query: string): (r: Result<Reply, string>)
    ensures r == Ok(Stored(NoSqlStored)) <==> StartsWith(JsTrim(query), "SET ")
    ensures r.Ok? && r.value.KeyList? <==> JsTrim(query) == "KEYS *"
    ensures r.Ok? && r.value.KeyList? ==> r.value.keys == Keys(data)
    ensures r.Ok? && r.value.Document? ==> Lookup(data, JsTrim(query)) == Some(r.value.doc) && Truthy(r.value.doc)
    ensures r.Err? <==> !StartsWith(JsTrim(query), "SET ") && JsTrim(query) != "KEYS *"
                        && !(Lookup(data, JsTrim(query)).Some? && Truthy(Lookup(data, JsTrim(query)).value))
    ensures r.Err? ==> r.error == NoSqlMissing
    ensures r.Ok? ==> r.value.Stored? || r.value.KeyList? || r.value.Document?
  {
    var key := JsTrim(query);
    KeysIsNotSet();
    if StartsWith(key, "SET ") then Ok(Stored(NoSqlStored))
    else if key == "KEYS *" then Ok(KeyList(Keys(data)))
    else match Lookup(data, key)
      case Some(doc) => if Truthy(doc) then Ok(Document(doc)) else Err(NoSqlMissing)
      case None => Err(NoSqlMissing)
  }

  /**
   * Both versions agree on every query except the names of inherited members
   * that the store does not hold itself.
   */
  lemma NoSqlVersionsAgree(data: Entries, query: string)
    requires !IsPrototypeMember(JsTrim(query)) || Lookup(data, JsTrim(query)).Some?
    ensures ProcessNoSqlQueryAsWritten(data, query) == ProcessNoSqlQuery(data, query)
  {
  }

  /** `processCacheQuery`: `SET ` is acknowledged, a key the map has returns its value, anything else is an error. */
  function ProcessCacheQuery(cache: Entries, query: string): (r: Result<Reply, string>)
    ensures r == Ok(Stored(CacheStored)) <==> StartsWith(JsTrim(query), "SET ")
    ensures r.Ok? && r.value.Cached? <==> !StartsWith(JsTrim(query), "SET ") && Lookup(cache, JsTrim(query)).Some?
    ensures r.Ok? && r.value.Cached? ==> Lookup(cache, JsTrim(query)) == Some(r.value.value)
    ensures r.Err? <==> r == Err(CacheMissing)
    ensures r.Ok? ==> r.value.Stored? || r.value.Cached?
  {
    var key := JsTrim(query);
    if StartsWith(key, "SET ") then Ok(Stored(CacheStored))
    else match Lookup(cache, key)
      case Some(v) => Ok(Cached(v))
      case None => Err(CacheMissing)
  }

  /** Surrounding white space never changes a store's answer. */
  lemma StoresIgnoreSurroundingSpace(data: Entries, query: string)
    ensures ProcessNoSqlQuery(data, query) == ProcessNoSqlQuery(data, JsTrim(query))
    ensures ProcessCacheQuery(data, query) == ProcessCacheQuery(data, JsTrim(query))
  {
    JsTrimIdempotent(query);
  }

  /**
   * Every key `KEYS *` lists can be queried back and yields its document,
   * unless it is itself a command or has surrounding white space, or the
   * document is falsy.
   */
  lemma ListedKeysAreQueryable(data: Entries, i: nat)
    requires DistinctKeys(data) && i < |data|
    requires JsTrim(data[i].0) == data[i].0
    requires !StartsWith(data[i].0, "SET ") && data[i].0 != "KEYS *" && Truthy(data[i].1)
    ensures ProcessNoSqlQuery(data, "KEYS *") == Ok(KeyList(Keys(data)))
    ensures Keys(data)[i] == data[i].0
    ensures ProcessNoSqlQuery(data, data[i].0) == Ok(Document(data[i].1))
  {
    assert JsTrimStart("KEYS *") == "KEYS *";
    LookupEntry(data, i);
  }

  /** Every key the cache holds is served back, whatever its value. */
  lemma CachedKeysAreServed(cache: Entries, i: nat)
    requires DistinctKeys(cache) && i < |cache|
    requires JsTrim(cache[i].0) == cache[i].0 && !StartsWith(cache[i].0, "SET ")
    ensures ProcessCacheQuery(cache, cache[i].0) == Ok(Cached(cache[i].1))
  {
    LookupEntry(cache, i);
  }

  // ---------------------------------------------------------------------------
  // The simulator object

  /** The two documents of `setupSampleData`. */
  const SampleDocuments: Entries := [
    ("user:1", JsObject([
      ("name", JsString("Alice Johnson")),
      ("age", JsNumber("16")),
      ("profile", JsObject([
        ("interests", JsArray([JsString("coding"), JsString("gaming"), JsString("music")])),
        ("achievements", JsArray([JsString("First Hackathon"), JsString("Code Challenge Winner")])),
        ("social", JsObject([
          ("friends", JsArray([JsString("user:2"), JsString("user:3")])),
          ("posts", JsNumber("15")),
          ("likes", JsNumber("127"))]))]))])),
    ("user:2", JsObject([
      ("name", JsString("Bob Smith")),
      ("age", JsNumber("15")),
      ("profile", JsObject([
        ("interests", JsArray([JsString("sports"), JsString("coding"), JsString("movies")])),
        ("achievements", JsArray([JsString("Team Captain"), JsString("Honor Roll")])),
        ("social", JsObject([
          ("friends", JsArray([JsString("user:1"), JsString("user:4")])),
          ("posts", JsNumber("8")),
          ("likes", JsNumber("64"))]))]))]))
  ]

  /**
   * The three cache entries of `setupSampleData`, as `JSON.parse` reads them
   * back; `loginTime` and `lastActivity` are what the two calls of `Date.now()`
   * returned, which need not be equal.
   */
  function SampleCache(loginTime: nat, lastActivity: nat): Entries {
    [ ("session:user1", JsObject([
        ("userId", JsNumber("1")),
        ("loginTime", JsNumber(Decimal.NatToString(loginTime))),
        ("lastActivity", JsNumber(Decimal.NatToString(lastActivity)))])),
      ("recent:posts", JsArray([JsString("post1"), JsString("post2"), JsString("post3")])),
      ("popular:games", JsArray([JsString("Minecraft"), JsString("Roblox"), JsString("Fortnite")])) ]
  }

  class Simulator {
    var currentDB: string
    var nosqlData: Entries
    var cacheData: Entries

    predicate Valid()
      reads this
    {
      DistinctKeys(nosqlData) && DistinctKeys(cacheData)
    }

    /** The constructor: the SQL tab is selected and both stores hold their sample data. */
    constructor (loginTime: nat, lastActivity: nat)
      ensures Valid()
      ensures currentDB == "sql" && nosqlData == SampleDocuments && cacheData == SampleCache(loginTime, lastActivity)
    {
      currentDB := "sql";
      nosqlData := SampleDocuments;
      cacheData := SampleCache(loginTime, lastActivity);
    }

    /** `switchDatabase`: selects the store later queries go to, whatever its name. */
    method SwitchDatabase(dbType: string)
      requires Valid()
      modifies this
      ensures Valid()
      ensures currentDB == dbType && nosqlData == old(nosqlData) && cacheData == old(cacheData)
    {
      currentDB := dbType;
    }

    /**
     * `processQuery`: the SQL tab forwards the untrimmed query to the server,
     * the other two tabs ask their store, and any other selection throws.
     */
    function ProcessQuery(query: string): (r: Result<Reply, string>)
      reads this
      ensures r == Err(UnknownDatabase) <==> currentDB !in {"sql", "nosql", "cache"}
      ensures r == Ok(SqlRequest(query)) <==> currentDB == "sql"
      ensures currentDB == "nosql" ==> r == ProcessNoSqlQuery(nosqlData, query)
      ensures currentDB == "cache" ==> r == ProcessCacheQuery(cacheData, query)
    {
      match currentDB
      case "sql" => Ok(SqlRequest(query))
      case "nosql" => ProcessNoSqlQuery(nosqlData, query)
      case "cache" => ProcessCacheQuery(cacheData, query)
      case _ => Err(UnknownDatabase)
    }
  }

  /**
   * `processNoSQLQuery` as written serves `Object.prototype.constructor` as a
   * document of the sample store, where the store holds no such key.
   */
  lemma ConstructorIsServed()
    ensures ProcessNoSqlQueryAsWritten(SampleDocuments, "constructor") == Ok(Document(JsBuiltin("constructor")))
    ensures ProcessNoSqlQuery(SampleDocuments, "constructor") == Err(NoSqlMissing)
  {
    assert JsTrimStart("constructor") == "constructor";
    assert Lookup(SampleDocuments, "constructor") == None;
  }

  // ---------------------------------------------------------------------------
  // formatTableResults

  /** The `{columns, rows}` object handed to `formatTableResults`. */
  datatype TableData = TableData(columns: seq<JsValue>, rows: seq<seq<JsValue>>)

  const NoResults := "<p>No results found.</p>"
  const TableOpen := "<div class=\"table-view\"><table>"
  const TableClose := "</tbody></table></div>"

  /** `row[idx]`: past the end of the array it is `undefined`. */
  function At(row: seq<JsValue>, idx: nat): JsValue {
    if idx < |row| then row[idx] else JsUndefined
  }

  /** `<th>${col}</th>`. */
  function Th(col: JsValue): string { "<th>" + Text(col) + "</th>" }

  /** `<td>${v}</td>`. */
  function Td(v: JsValue): string { "<td>" + Text(v) + "</td>" }

  /** One `<th>` per column, in column order. */
  function HeaderCells(columns: seq<JsValue>): string {
    if |columns| == 0 then "" else HeaderCells(columns[..|columns| - 1]) + Th(columns[|columns| - 1])
  }

  /** The `<td>` cells of the first `n` positions of a row. */
  function DataCells(row: seq<JsValue>, n: nat): string {
    if n == 0 then "" else DataCells(row, n - 1) + Td(At(row, n - 1))
  }

  /** `<tr>`, one cell per column, `</tr>`. */
  function Tr(row: seq<JsValue>, width: nat): string { "<tr>" + DataCells(row, width) + "</tr>" }

  /** One `<tr>` per row, in row order. */
  function BodyRows(rows: seq<seq<JsValue>>, width: nat): string {
    if |rows| == 0 then "" else BodyRows(rows[..|rows| - 1], width) + Tr(rows[|rows| - 1], width)
  }

  /** The markup `formatTableResults` returns; `None` stands for a falsy `data`. */
  function TableHtml(data: Option<TableData>): string {
    match data
    case None => NoResults
    case Some(d) =>
      TableOpen + "<thead><tr>" + HeaderCells(d.columns) + "</tr></thead>"
      + "<tbody>" + BodyRows(d.rows, |d.columns|) + TableClose
  }

  /** `formatTableResults`, appending the markup to `html` piece by piece. */
  method FormatTableResults(data: Option<TableData>) returns (html: string)
    ensures html == TableHtml(data)
  {
    if data.None? {
      return NoResults;
    }
    var columns := data.value.columns;
    html := TableOpen;
    html := html + "<thead><tr>";
    html := AppendHeaderCells(html, columns);
    html := html + "</tr></thead>";
    html := html + "<tbody>";
    html := AppendRows(html, data.value.rows, |columns|);
    html := html + TableClose;
  }

  lemma Associative(a: string, b: string, c: string)
    ensures (a + b) + c == a + (b + c)
  {
  }

  /** The `columns.forEach` of the header: one `<th>` per column. */
  method AppendHeaderCells(start: string, columns: seq<JsValue>) returns (html: string)
    ensures html == start + HeaderCells(columns)
  {
    html := start;
    var c := 0;
    while c < |columns|
      invariant 0 <= c <= |columns|
      invariant html == start + HeaderCells(columns[..c])
    {
      assert columns[..c + 1][..c] == columns[..c];
      Associative(start, HeaderCells(columns[..c]), Th(columns[c]));
      html := html + Th(columns[c]);
      c := c + 1;
    }
    assert columns[..c] == columns;
  }

  /** The `rows.forEach`: one `<tr>` per row. */
  method AppendRows(start: string, rows: seq<seq<JsValue>>, width: nat) returns (html: string)
    ensures html == start + BodyRows(rows, width)
  {
    html := start;
    var r := 0;
    while r < |rows|
      invariant 0 <= r <= |rows|
      invariant html == start + BodyRows(rows[..r], width)
    {
      var before := html;
      html := html + "<tr>";
      html := AppendCells(html, rows[r], width);
      html := html + "</tr>";
      Associative(before, "<tr>", DataCells(rows[r], width));
      Associative(before, "<tr>" + DataCells(rows[r], width), "</tr>");
      assert rows[..r + 1][..r] == rows[..r];
      Associative(start, BodyRows(rows[..r], width), Tr(rows[r], width));
      r := r + 1;
    }
    assert rows[..r] == rows;
  }

  /** The inner `columns.forEach` of a row: one `<td>` per column index, `undefined` past the row's end. */
  method AppendCells(start: string, row: seq<JsValue>, width: nat) returns (html: string)
    ensures html == start + DataCells(row, width)
  {
    html := start;
    var idx := 0;
    while idx < width
      invariant 0 <= idx <= width
      invariant html == start + DataCells(row, idx)
    {
      Associative(start, DataCells(row, idx), Td(At(row, idx)));
      html := html + Td(At(row, idx));
      idx := idx + 1;
    }
  }

  /** Entries of a row beyond the last column are never shown. */
  lemma {:induction false} ExtraEntriesDropped(row: seq<JsValue>, extra: seq<JsValue>, n: nat)
    requires n <= |row|
    ensures DataCells(row + extra, n) == DataCells(row, n)
  {
    if n > 0 {
      ExtraEntriesDropped(row, extra, n - 1);
      assert (row + extra)[n - 1] == row[n - 1];
      assert Td(At(row + extra, n - 1)) == Td(At(row, n - 1));
    }
  }

  /** `<td>undefined</td>` repeated `k` times. */
  function UndefinedCells(k: nat): string {
    if k == 0 then "" else UndefinedCells(k - 1) + Td(JsUndefined)
  }

  /** The cell a missing entry renders as. */
  lemma UndefinedCellText()
    ensures Td(JsUndefined) == "<td>undefined</td>"
  {
  }

  /** A row shorter than the column list is padded with `<td>undefined</td>` cells. */
  lemma {:induction false} ShortRowsShowUndefined(row: seq<JsValue>, n: nat)
    requires |row| <= n
    ensures DataCells(row, n) == DataCells(row, |row|) + UndefinedCells(n - |row|)
  {
    if n > |row| {
      ShortRowsShowUndefined(row, n - 1);
      Associative(DataCells(row, |row|), UndefinedCells(n - 1 - |row|), Td(JsUndefined));
    }
  }

  /** Rows are rendered in order: the markup of two batches of rows is the two markups one after the other. */
  lemma {:induction false} RowsInOrder(a: seq<seq<JsValue>>, b: seq<seq<JsValue>>, width: nat)
    ensures BodyRows(a + b, width) == BodyRows(a, width) + BodyRows(b, width)
  {
    if |b| == 0 {
      assert a + b == a;
    } else {
      var init, last := b[..|b| - 1], b[|b| - 1];
      assert (a + b)[..|a + b| - 1] == a + init;
      assert (a + b)[|a + b| - 1] == last;
      assert BodyRows(a + b, width) == BodyRows(a + init, width) + Tr(last, width);
      RowsInOrder(a, init, width);
      Associative(BodyRows(a, width), BodyRows(init, width), Tr(last, width));
    }
  }

  /**
   * Only a missing `data` gives the no-results message: a result with no rows
   * (or no columns) still renders the table with its header.
   */
  lemma EmptyResultKeepsHeader(columns: seq<JsValue>)
    ensures TableHtml(Some(TableData(columns, [])))
            == TableOpen + "<thead><tr>" + HeaderCells(columns) + "</tr></thead>" + "<tbody>" + TableClose
    ensures TableHtml(Some(TableData(columns, []))) != NoResults
  {
    var h := TableHtml(Some(TableData(columns, [])));
    assert h[1] == TableOpen[1] == 'd';
    assert NoResults[1] == 'p';
  }
}
