# SQL learning sandbox — the query engine and its dispatchers

This project models the part of the SQL learning sandbox that runs any SQL text
and hands back a uniform table, and proves properties of that model in Dafny.
It covers:

- **The statement classifier** (`Statements`). A statement is a read exactly
  when `sql.trim().toUpperCase().startsWith("SELECT")`.
- **`RootDataRepo.executeQuery`** (`RootDataRepo`). It reads the column
  metadata once, walks the cursor, turns DATE values into `yyyy-MM-dd` text
  and returns a `SqlQueryResult`. Any statement that is not a read goes
  through `executeUpdate` and becomes a one-cell `rows_affected` table.
- **`SqlController`** (`SqlController`). This is the controller's own copy of
  `executeQuery`: cells are passed through unchanged, `totalRows` is set by the
  `QueryResult` constructor and the timing is rendered as text. The module also
  holds `ApiResponse.success/error` and the branch decisions of the
  `/api/query` handler.
- **`DbLearningApp`** (`DbLearningApp`). The console's `executeQuery` prints a
  grid of `%-15s` columns. `startInteractiveMode` is the read-trim-dispatch
  loop over typed lines (`quit`/`exit`, `help`, blank, statement).
- **The browser `DatabaseSimulator`** (`DatabaseSimulator`, from `main.js`).
  It covers `processQuery`, the simulated NoSQL store and cache, and the HTML
  table renderer `formatTableResults`.
- **Both copies side by side** (`Copies`). Lemmas state where the two copies
  of `executeQuery` agree and where they differ.

Supporting modules:

- `Results`: `Option`/`Result`.
- `JavaStrings`: Java's `trim`, `toUpperCase`, `equalsIgnoreCase` and
  `startsWith`.
- `Decimal`: `Long.toString` and its inverse.
- `Dates`: `LocalDate.toString` and its inverse.
- `Jdbc`: cells, column metadata, a forward-only `ResultSet` cursor class, and
  the database as an oracle for `executeQuery`/`executeUpdate` with an
  optional connection failure.

The imperative parts of the Java source are modelled as Dafny methods. These
are the metadata `for` loops, the `while (rs.next())` loops with their inner
`for`, the console's `while (true)` loop and the `html +=` accumulation of
`formatTableResults`. Each method is proved equal to a specification function
(`Execute`, `Run`, `Interact`, `TableHtml`). The properties are proved about
those functions.

Behaviour of the code worth knowing:

- **Mutation counts.** For a mutation, `SqlController` sets `totalRows` from the
  row list, so it is always 1. It is not the affected-row count.
  `RootDataRepo` does report the affected count.
- **DATE values.** Only `RootDataRepo` turns DATE values into strings.
  `SqlController` passes the driver's date object through.
- **Date format.** The ISO text has the `yyyy-MM-dd` shape only for years 0 to
  9999. `LocalDate.toString` writes `+10000-01-01` beyond that.
- **NULL dates.** A NULL in a DATE column makes `RootDataRepo.executeQuery`
  throw, so no result is built.
- **Blank SQL.** Only the HTTP handler rejects blank SQL. The executors
  themselves have no such guard.

## Model

| member | source | states |
|---|---|---|
| Statements.ReadCharacterisation | src/main/java/org/academy/pi/sql/data/RootDataRepo.java:54 | a statement is a read iff, after a run of characters ≤ U+0020, its next six characters upper-case to `SELECT`; nothing is required of what follows |
| Statements.ReadHasPosition | src/main/java/org/academy/pi/sql/data/RootDataRepo.java:54 | every read has a position where trimming stops and six characters upper-casing to `SELECT` begin |
| Statements.PositionIsRead | src/main/java/org/academy/pi/sql/data/RootDataRepo.java:54 | six characters upper-casing to `SELECT` after only trimmable characters make the statement a read |
| Statements.ReadIgnoresLeadingWhitespace | src/main/java/org/academy/pi/sql/data/RootDataRepo.java:54 | prefixing characters ≤ U+0020 never changes the classification |
| Statements.ReadIgnoresCase | src/main/java/org/academy/pi/sql/SqlController.java:439 | two statements that upper-case alike are classified alike |
| Statements.FirstLetterDecides | src/main/java/org/academy/pi/DbLearningApp.java:157 | a statement whose first character is visible and does not upper-case to `S` is not a read |
| Statements.CteIsNotRead | src/main/java/org/academy/pi/sql/data/RootDataRepo.java:54 | a `WITH … SELECT` statement takes the update path |
| Statements.ShowIsNotRead | src/main/java/org/academy/pi/sql/SqlController.java:439 | `SHOW TABLES` takes the update path |
| Statements.LowerCaseIsRead | src/main/java/org/academy/pi/DbLearningApp.java:157 | ` select 1` (leading blank, lower case) is a read |
| Statements.SelectXIsRead | src/main/java/org/academy/pi/sql/data/RootDataRepo.java:54 | only the prefix is tested: `SELECTX` is a read |
| Dates.IsoStringRoundTrip | src/main/java/org/academy/pi/sql/data/RootDataRepo.java:71 | for years 0–9999 `LocalDate.toString` gives a ten-character `yyyy-MM-dd` text that parses back to the same date |
| Dates.YearTenThousand | src/main/java/org/academy/pi/sql/data/RootDataRepo.java:71 | past year 9999 the text is `+10000-01-01`, not ten characters |
| RootDataRepo.ExecuteOutcomes | src/main/java/org/academy/pi/sql/data/RootDataRepo.java:48-101 | a connection or driver failure is an SQLException with no result; a read fails with a NullPointerException iff some DATE value is NULL, and otherwise yields the metadata names in order, one row per cursor row of `columnCount` cells, DATE cells as ISO text, other cells unchanged, and `count == rows.size()`; a mutation yields `["rows_affected"]`, `[[n]]` and `count == n` |
| RootDataRepo.ReadColumnNames | src/main/java/org/academy/pi/sql/data/RootDataRepo.java:56-63 | the metadata loop collects `getColumnName(1..n)` in order, duplicates kept |
| RootDataRepo.ShapeCurrentRow | src/main/java/org/academy/pi/sql/data/RootDataRepo.java:68-75 | the inner loop fails exactly when the current row has a NULL DATE, and otherwise yields the row with DATE cells normalised |
| RootDataRepo.ShapeCell | src/main/java/org/academy/pi/sql/data/RootDataRepo.java:70-74 | a DATE cell becomes its ISO-8601 text and fails exactly on NULL; any other cell is `getObject` unchanged |
| RootDataRepo.ExecuteQuery | src/main/java/org/academy/pi/sql/data/RootDataRepo.java:48-101 | the loop implementation returns exactly what `Execute` specifies |
| RootDataRepo.DateCellsAreIsoStrings | src/main/java/org/academy/pi/sql/data/RootDataRepo.java:70-74 | in a successful read every DATE cell is a string, ISO-shaped and reading back as the stored date for years 0–9999 |
| SqlController.ElapsedTextRoundTrip | src/main/java/org/academy/pi/sql/SqlController.java:460-461 | `executionTime + "ms"` ends in `ms` and the part before reads back as the elapsed milliseconds |
| SqlController.ExecuteOutcomes | src/main/java/org/academy/pi/sql/SqlController.java:433-472 | every result has `totalRows == rows.size()`, the timing text and rows of `columnCount` cells; failures carry the SQLException message; a read passes names and values through unchanged; a mutation yields `["rows_affected"]`, `[[n]]` and `totalRows == 1` |
| SqlController.ReadColumnNames | src/main/java/org/academy/pi/sql/SqlController.java:445-448 | the metadata loop collects the column names in order |
| SqlController.CopyCurrentRow | src/main/java/org/academy/pi/sql/SqlController.java:453-456 | the inner loop copies the current cursor row value by value |
| SqlController.ExecuteQuery | src/main/java/org/academy/pi/sql/SqlController.java:433-472 | the loop implementation returns exactly what `Execute` specifies |
| SqlController.Decide | src/main/java/org/academy/pi/sql/SqlController.java:278-296 | non-POST gets 405; a POST gets 400 `SQL query is required` iff `sql` is missing, null or blank after `trim`; the SQL runs iff it is a non-blank string, and it runs untrimmed; an unreadable body or a non-string `sql` gets 500 `Query error: …` |
| SqlController.HandleCustomQuery | src/main/java/org/academy/pi/sql/SqlController.java:275-297 | a guarded request gets `ApiResponse.error` with the guard's status; otherwise 200 with `ApiResponse.success(result)` or 500 with `Query error: ` + the exception message; status 200 iff `success` iff `data` is present, and success carries the message `Success` |
| Copies.FailTogether | src/main/java/org/academy/pi/sql/data/RootDataRepo.java:71 | both copies fail on the same calls with the same SQLException message, except that a NULL DATE fails only `RootDataRepo`, where the controller succeeds |
| Copies.ReadsDifferOnlyInDates | src/main/java/org/academy/pi/sql/data/RootDataRepo.java:66-77 | on a read both copies list the same columns and row counts, each repository cell is the controller's cell with DATE values normalised, and without DATE columns the tables are identical |
| Copies.MutationCountsDiffer | src/main/java/org/academy/pi/sql/SqlController.java:467-469 | on a mutation both copies yield the same table, but the repository's count is the affected-row count while `totalRows` is 1; they agree iff one row was affected |
| DbLearningApp.PadRight | src/main/java/org/academy/pi/DbLearningApp.java:166 | `%-15s` pads with spaces to 15 characters and never cuts the text |
| DbLearningApp.PrintHeader | src/main/java/org/academy/pi/DbLearningApp.java:165-167 | the header loop prints every column name of the result, in order, each padded by `%-15s` |
| DbLearningApp.PrintRows | src/main/java/org/academy/pi/DbLearningApp.java:171-176 | the `while (rs.next())` loop prints exactly one line per row of the result, in cursor order, and leaves the cursor after the last row |
| DbLearningApp.RunOutcomes | src/main/java/org/academy/pi/DbLearningApp.java:153-186 | a connection or driver failure is reported (not thrown); a read prints the grid; anything else reports `executeUpdate`'s count |
| DbLearningApp.PrintRow | src/main/java/org/academy/pi/DbLearningApp.java:172-175 | the inner loop prints `getString(1..n)` of the current row, one padded cell per column |
| DbLearningApp.ExecuteQuery | src/main/java/org/academy/pi/DbLearningApp.java:153-186 | the loop implementation reports exactly what `Run` specifies |
| DbLearningApp.LineLength | src/main/java/org/academy/pi/DbLearningApp.java:165-167 | texts of at most 15 characters make a line of exactly 15 characters per column |
| DbLearningApp.LineColumn | src/main/java/org/academy/pi/DbLearningApp.java:172-174 | column j of such a line is the j-th text padded to 15 |
| DbLearningApp.GridAligned | src/main/java/org/academy/pi/DbLearningApp.java:163-176 | when names and values fit, the header and every row line have the same length and column j shows the j-th name and value |
| DbLearningApp.Printed | src/main/java/org/academy/pi/DbLearningApp.java:164-184 | standard output is empty iff the statement failed; a failure writes exactly `SQL Error: ` + message to standard error |
| DbLearningApp.QuitSpellings | src/main/java/org/academy/pi/DbLearningApp.java:239 | `equalsIgnoreCase("quit")` accepts exactly the four-letter spellings of q, u, i (or ı, İ), t in either case |
| DbLearningApp.Dispatch | src/main/java/org/academy/pi/DbLearningApp.java:242-246 | a non-quit line shows examples for `help`, does nothing if empty, and otherwise runs the line against the database as left by the earlier statements |
| DbLearningApp.StartInteractiveMode | src/main/java/org/academy/pi/DbLearningApp.java:229-250 | the loop produces exactly the transcript `Interact` specifies |
| DbLearningApp.BeforeQuit | src/main/java/org/academy/pi/DbLearningApp.java:235-241 | the lines read are a prefix of the input, none of them quit/exit, and the input goes on past them iff it holds a quit/exit line, which then follows them |
| DbLearningApp.ExecutedStep | src/main/java/org/academy/pi/DbLearningApp.java:242-246 | a non-quit line executes itself iff it is non-empty and not `help`, and nothing else |
| DbLearningApp.ExecutesTypedStatements | src/main/java/org/academy/pi/DbLearningApp.java:235-247 | the console executes exactly the trimmed, non-empty, non-help lines typed before the first quit/exit, once each, in order |
| DbLearningApp.CommandsAreStatements | src/main/java/org/academy/pi/DbLearningApp.java:237-246 | every executed statement is trimmed, non-empty and neither `help` nor `quit`/`exit` |
| DbLearningApp.GoodbyeAtQuit | src/main/java/org/academy/pi/DbLearningApp.java:239-241 | the loop ends with the goodbye exactly when it stops before the end of the input |
| DbLearningApp.GoodbyeIffQuit | src/main/java/org/academy/pi/DbLearningApp.java:239-241 | the session says goodbye iff some line is quit/exit; otherwise it ends when input runs out |
| DbLearningApp.StopsAtQuit | src/main/java/org/academy/pi/DbLearningApp.java:239-241 | input after the first quit/exit is never read |
| DbLearningApp.NothingAfterQuit | src/main/java/org/academy/pi/DbLearningApp.java:239-241 | a session is the same whatever is typed after quit/exit |
| DbLearningApp.StatementsSeeEarlierOnes | src/main/java/org/academy/pi/DbLearningApp.java:244-246 | as far as the console's own statements go, each statement runs against the database as left by every statement executed before it, in typed order |
| DatabaseSimulator.JsTrimIdempotent | src/main/web/js/main.js:267 | JavaScript's `trim` leaves no white space at either end, so trimming twice is trimming once |
| DatabaseSimulator.Lookup | src/main/web/js/main.js:288 | a key is found iff some entry has it, and the value found is that entry's |
| DatabaseSimulator.ProcessNoSqlQuery | src/main/web/js/main.js:266-278 | the corrected lookup (the code as written is `DatabaseSimulator.ProcessNoSqlQueryAsWritten`, see Findings): a trimmed `SET ` prefix is acknowledged first; exactly `KEYS *` lists the store's keys in order; a stored key with a truthy document returns it; everything else throws `Key not found in NoSQL store` |
| DatabaseSimulator.NoSqlVersionsAgree | src/main/web/js/main.js:273-274 | the code as written and the corrected lookup agree on every query except inherited member names the store does not hold |
| DatabaseSimulator.ConstructorIsServed | src/main/web/js/main.js:273-274 | as written, querying `constructor` on the sample store returns `Object` as a document, where the corrected store throws |
| DatabaseSimulator.ProcessCacheQuery | src/main/web/js/main.js:280-294 | a trimmed `SET ` prefix is acknowledged; otherwise a key the map has returns its value; everything else throws `Cache key not found` |
| DatabaseSimulator.StoresIgnoreSurroundingSpace | src/main/web/js/main.js:267 | both stores answer a query as they answer its trimmed form |
| DatabaseSimulator.ListedKeysAreQueryable | src/main/web/js/main.js:271-274 | `KEYS *` lists the keys, and each listed key with a truthy document (not itself a command, no surrounding blanks) queries back to that document |
| DatabaseSimulator.CachedKeysAreServed | src/main/web/js/main.js:288-290 | every key the cache holds is served back with its value, falsy or not |
| DatabaseSimulator.Simulator.constructor | src/main/web/js/main.js:4-11 | a new simulator selects `sql` and holds the sample documents and cache entries of `setupSampleData`, with the session's `loginTime` and `lastActivity` taken from two separate clock readings |
| DatabaseSimulator.Simulator.SwitchDatabase | src/main/web/js/main.js:110-111 | selects any store name and changes nothing else |
| DatabaseSimulator.Simulator.ProcessQuery | src/main/web/js/main.js:194-205 | `sql` forwards the untrimmed query to the server, `nosql` and `cache` ask their store, and any other selection throws `Unknown database type`; the `nosql` branch uses the corrected lookup `DatabaseSimulator.ProcessNoSqlQuery`, not the as-written `DatabaseSimulator.ProcessNoSqlQueryAsWritten` (see Findings) |
| DatabaseSimulator.FormatTableResults | src/main/web/js/main.js:369-400 | the accumulated markup equals `TableHtml`: the no-results paragraph for falsy data, otherwise the table with its header and body |
| DatabaseSimulator.AppendHeaderCells | src/main/web/js/main.js:383-385 | appends one `<th>` per column, in column order |
| DatabaseSimulator.AppendRows | src/main/web/js/main.js:390-396 | appends one `<tr>` per row, in row order |
| DatabaseSimulator.AppendCells | src/main/web/js/main.js:392-394 | appends one `<td>` per column index, taken positionally from the row |
| DatabaseSimulator.ExtraEntriesDropped | src/main/web/js/main.js:392-394 | entries of a row past the last column never reach the markup |
| DatabaseSimulator.ShortRowsShowUndefined | src/main/web/js/main.js:392-394 | a row shorter than the columns is padded with `undefined` cells up to the column count |
| DatabaseSimulator.UndefinedCellText | src/main/web/js/main.js:393 | a missing entry renders as `<td>undefined</td>` |
| DatabaseSimulator.RowsInOrder | src/main/web/js/main.js:390-396 | the body of two batches of rows is the first batch's body followed by the second's |
| DatabaseSimulator.EmptyResultKeepsHeader | src/main/web/js/main.js:370-372 | only missing data gives the no-results paragraph; a result with no rows still renders the header |

## Left out

- Locale and Unicode: `toUpperCase` is modelled only where it yields an ASCII
  capital (a–z, ı, ſ). There is no locale, and no expansion such as `ß` to
  `SS`. `equalsIgnoreCase` is modelled where it involves ASCII letters, İ, ı
  and the Kelvin sign. Strings are sequences of Unicode scalar values rather
  than UTF-16 units.
- I/O and time: wall-clock timing is a parameter (`elapsedMs`). The
  `ApiResponse` timestamp, banners, prompts, the example catalogue of
  `showExamples` and `line.separator` (taken as `\n`) are not modelled.
- JDBC and H2: the driver is an oracle (connection failure, query answer,
  update count). Closing resources and the `connection` field being null are
  not modelled. H2's `getString` text is fixed as decimal for integers,
  `TRUE`/`FALSE` for booleans and ISO text for dates. Other types carry their
  text opaquely.
- Console state: the database changes made by earlier console statements are a
  function from the statements executed so far to the database state
  (`Session`), not a mutable store.
- Other connections: the HTTP API that `main` starts, the H2 web console and
  other processes admitted by `AUTO_SERVER=TRUE` can all change the same
  database between two console statements. The model treats the console as
  the only writer.
- HTTP: CORS headers, Jackson encoding and the reading of the request body are
  left out. Only the decoded body, or the message of its failure, is modelled.
- In `main.js`:
  - `processSQLQuery`'s `fetch` and everything after it is left out.
    `processQuery` only records the request it sends.
  - DOM updates in `switchDatabase`/`updateUI` are left out.
  - `JSON.parse` of cached values is left out: they are stored already parsed.
  - A number is kept as its `toString` text.
  - `Object.keys` is taken to list entries in insertion order; integer-like
    keys, which JavaScript lists first, do not occur in the stores.
- DatabaseSimulator.FormatTableResults: only a falsy `data` or a
  `{columns, rows}` object is modelled. An array argument, where `length`
  matters, and an object missing `columns` or `rows`, on which `forEach`
  throws, are left out. Cell text is not HTML-escaped in the source, and the
  model does not escape it either.
- Integer widths: `executeUpdate`'s count is a Java `int` (`Int32`), and
  integer cells are unbounded.

## Findings

| source | as written | input that shows it | evidently intended | confidence | as-written member | corrected member |
|---|---|---|---|---|---|---|
| src/main/web/js/main.js:273-274 | `processNoSQLQuery` looks documents up with `this.nosqlData[trimmedQuery]`, which also finds the members a plain object inherits from `Object.prototype` | the query `constructor` (likewise `toString`, `__proto__`, `hasOwnProperty`, …) returns `{type: 'document', data: Object}` instead of throwing `Key not found in NoSQL store` | only keys the store holds are served as documents | not executed | DatabaseSimulator.ProcessNoSqlQueryAsWritten (shown by DatabaseSimulator.ConstructorIsServed) | DatabaseSimulator.ProcessNoSqlQuery (proved in DatabaseSimulator.ListedKeysAreQueryable, used by DatabaseSimulator.Simulator.ProcessQuery) |
