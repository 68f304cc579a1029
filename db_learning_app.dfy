/**
 * `DbLearningApp`: the console's `executeQuery`, which prints a result set as a
 * grid of 15-character left-justified columns, and `startInteractiveMode`, the
 * read-trim-dispatch loop over the lines a student types.
 */
module DbLearningApp {
  import opened Results
  import opened Jdbc
  import opened JavaStrings
  import opened Statements
  import Decimal

  /** The field width of `%-15s`. */
  const Width: nat := 15

  function Repeat(c: char, n: nat): (s: string)
    ensures |s| == n && forall k :: 0 <= k < n ==> s[k] == c
  {
    seq(n, _ => c)
  }

  /** `String.format("%-15s", s)`: padded with spaces on the right to 15, never cut. */
  function PadRight(s: string): (p: string)
    ensures |p| == if |s| < Width then Width else |s|
    ensures p[..|s|] == s
    ensures forall k :: |s| <= k < |p| ==> p[k] == ' '
  {
    if |s| < Width then s + Repeat(' ', Width - |s|) else s
  }

  /** One printed line: every text through `%-15s`, one after the other. */
  function Line(texts: seq<string>): string {
    if |texts| == 0 then "" else Line(texts[..|texts| - 1]) + PadRight(texts[|texts| - 1])
  }

  /** `%s` of a `getString` result: Java prints a null argument as `null`. */
  function ShownText(s: Option<string>): string {
    if s.Some? then s.value else "null"
  }

  /** `%s` of `getString` on a value. */
  function Shown(c: Cell): string {
    ShownText(StringValue(c))
  }

  function CellTexts(row: seq<Cell>): seq<string> {
    seq(|row|, i requires 0 <= i < |row| => Shown(row[i]))
  }

  /** What one call of `executeQuery(sql)` reports. */
  datatype Report =
    | Grid(header: string, lines: seq<string>)   // a SELECT: the header line and one line per row
    | Affected(count: Int32)                     // any other statement: `executeUpdate`'s count
    | Failed(message: string)                    // the SQLException message, printed on standard error

  /** One printed line per row of the table, in cursor order. */
  function RowLines(t: Table): seq<string> {
    seq(|t.rows|, k requires 0 <= k < |t.rows| => Line(CellTexts(t.rows[k])))
  }

  /** The grid printed for a result set. */
  function GridOf(t: Table): Report {
    Grid(Line(ColumnNames(t.meta)), RowLines(t))
  }

  /** The report of `executeQuery(sql)`. */
  function Run(db: Database, sql: string): Report
  {
    if db.connectionFailure.Some? then Failed(db.connectionFailure.value)
    else if IsRead(sql) then
      match db.query(sql)
      case Err(m) => Failed(m)
      case Ok(t) => GridOf(t)
    else
      match db.update(sql)
      case Err(m) => Failed(m)
      case Ok(n) => Affected(n)
  }

  /** What `executeQuery` reports on each path: the connection, the classifier, then the driver's answer. */
  lemma RunOutcomes(db: Database, sql: string)
    ensures db.connectionFailure.Some? ==> Run(db, sql) == Failed(db.connectionFailure.value)
    ensures db.connectionFailure.None? && IsRead(sql) ==>
      match db.query(sql)
      case Err(m) => Run(db, sql) == Failed(m)
      case Ok(t) =>
        var r := Run(db, sql);
        r.Grid? && r.header == Line(ColumnNames(t.meta)) && |r.lines| == |t.rows| &&
        forall k :: 0 <= k < |t.rows| ==> r.lines[k] == Line(CellTexts(t.rows[k]))
    ensures db.connectionFailure.None? && !IsRead(sql) ==>
      match db.update(sql)
      case Err(m) => Run(db, sql) == Failed(m)
      case Ok(n) => Run(db, sql) == Affected(n)
  {
  }


  lemma LineStep(texts: seq<string>, i: nat)
    requires 0 < i <= |texts|
    ensures Line(texts[..i]) == Line(texts[..i - 1]) + PadRight(texts[i - 1])
  {
    assert texts[..i][..i - 1] == texts[..i - 1];
  }

  /** The inner `for` of `executeQuery`: the current row, one `%-15s` per column. */
  method PrintRow(rs: ResultSet) returns (line: string)
    requires rs.OnRow()
    ensures line == Line(CellTexts(rs.table.rows[rs.position - 1]))
  {
    ghost var texts := CellTexts(rs.table.rows[rs.position - 1]);
    var columnCount := rs.ColumnCount();
    line := "";
    var i := 1;
    while i <= columnCount
      invariant 1 <= i <= columnCount + 1
      invariant line == Line(texts[..i - 1])
    {
      LineStep(texts, i);
      var shown := ShownText(rs.GetString(i));
      line := line + PadRight(shown);
      i := i + 1;
    }
    assert texts[..columnCount] == texts;
  }

  /** The header loop of `executeQuery`: one `%-15s` per column name. */
  method PrintHeader(rs: ResultSet) returns (header: string)
    ensures header == Line(ColumnNames(rs.table.meta))
  {
    ghost var names := ColumnNames(rs.table.meta);
    var columnCount := rs.ColumnCount();
    header := "";
    var i := 1;
    while i <= columnCount
      invariant 1 <= i <= columnCount + 1
      invariant header == Line(names[..i - 1])
    {
      LineStep(names, i);
      header := header + PadRight(rs.ColumnName(i));
      i := i + 1;
    }
    assert names[..columnCount] == names;
  }

  /** The `while (rs.next())` loop of `executeQuery`: one printed line per cursor row. */
  method PrintRows(rs: ResultSet) returns (lines: seq<string>)
    requires rs.Valid() && rs.position == 0
    modifies rs
    ensures rs.Valid() && rs.position == |rs.table.rows| + 1
    ensures lines == RowLines(rs.table)
  {
    lines := [];
    while true
      invariant rs.Valid()
      invariant rs.position == |lines| <= |rs.table.rows|
      invariant lines == RowLines(rs.table)[..|lines|]
      decreases |rs.table.rows| - |lines|
    {
      var more := rs.Next();
      if !more {
        break;
      }
      var line := PrintRow(rs);
      lines := lines + [line];
    }
    assert lines == RowLines(rs.table);
  }

  /** `executeQuery`: header loop, then `while (rs.next())` printing `getString(1..n)`. */
  method ExecuteQuery(db: Database, sql: string) returns (r: Report)
    ensures r == Run(db, sql)
  {
    if db.connectionFailure.Some? {
      return Failed(db.connectionFailure.value);
    }
    if !IsRead(sql) {
      var update := db.update(sql);
      if update.Err? {
        return Failed(update.error);
      }
      return Affected(update.value);
    }
    var query := db.query(sql);
    if query.Err? {
      return Failed(query.error);
    }
    var t := query.value;
    var rs := new ResultSet(t);

    var header := PrintHeader(rs);

    var lines := PrintRows(rs);
    return Grid(header, lines);
  }

  lemma {:induction false} LineLength(texts: seq<string>)
    requires forall i :: 0 <= i < |texts| ==> |texts[i]| <= Width
    ensures |Line(texts)| == Width * |texts|
  {
    if |texts| > 0 {
      LineLength(texts[..|texts| - 1]);
    }
  }

  /**
   * When no text is wider than the field, the line has exactly 15 characters
   * per column and column j occupies characters 15j to 15j + 14.
   */
  lemma {:induction false} LineColumn(texts: seq<string>, j: nat)
    requires forall i :: 0 <= i < |texts| ==> |texts[i]| <= Width
    requires j < |texts|
    ensures |Line(texts)| == Width * |texts|
    ensures Line(texts)[Width * j..Width * (j + 1)] == PadRight(texts[j])
  {
    var n := |texts|;
    var init := texts[..n - 1];
    LineLength(texts);
    LineLength(init);
    if j == n - 1 {
      assert Line(texts) == Line(init) + PadRight(texts[j]);
    } else {
      LineColumn(init, j);
      assert Line(texts) == Line(init) + PadRight(texts[n - 1]);
      assert Line(texts)[..Width * (n - 1)] == Line(init);
    }
  }

  /**
   * A SELECT whose names and values all fit in 15 characters prints an aligned
   * grid: every line is 15 characters per column, and column j of the header
   * and of row k shows the name and the value of that column.
   */
  lemma GridAligned(db: Database, sql: string, t: Table, k: nat, j: nat)
    requires db.connectionFailure.None? && IsRead(sql) && db.query(sql) == Ok(t)
    requires k < |t.rows| && j < |t.meta|
    requires forall c :: 0 <= c < |t.meta| ==> |t.meta[c].name| <= Width
    requires forall c :: 0 <= c < |t.meta| ==> |Shown(t.rows[k][c])| <= Width
    ensures var r := Run(db, sql);
      r.Grid? && |r.lines| == |t.rows| &&
      |r.header| == |r.lines[k]| == Width * |t.meta| &&
      r.header[Width * j..Width * (j + 1)] == PadRight(t.meta[j].name) &&
      r.lines[k][Width * j..Width * (j + 1)] == PadRight(Shown(t.rows[k][j]))
  {
    RunOutcomes(db, sql);
    LineColumn(ColumnNames(t.meta), j);
    LineColumn(CellTexts(t.rows[k]), j);
  }

  /** The exact text `executeQuery` writes to standard output and to standard error. */
  datatype Output = Output(stdout: string, stderr: string)

  function Lines(lines: seq<string>): string {
    if |lines| == 0 then "" else Lines(lines[..|lines| - 1]) + lines[|lines| - 1] + "\n"
  }

  function Printed(r: Report): (o: Output)
    ensures r.Failed? <==> o.stdout == ""
    ensures r.Failed? <==> o.stderr != ""
    ensures r.Failed? ==> o.stderr == "SQL Error: " + r.message + "\n"
  {
    match r
    case Grid(header, lines) =>
      Output("\n" + Repeat('=', 80) + "\n" + header + "\n" + Repeat('-', 80) + "\n"
             + Lines(lines) + Repeat('=', 80) + "\n", "")
    case Affected(n) =>
      Output("\U{2713} Query executed successfully! Rows affected: " + Decimal.IntToString(n) + "\n", "")
    case Failed(m) =>
      Output("", "SQL Error: " + m + "\n")
  }

  predicate IsQuit(line: string) {
    EqualsIgnoreCase(line, "quit") || EqualsIgnoreCase(line, "exit")
  }

  predicate IsHelp(line: string) {
    EqualsIgnoreCase(line, "help")
  }

  /** `quit` is recognised in exactly these spellings (Java's case folding lets ı and İ stand for i). */
  lemma QuitSpellings(s: string)
    ensures EqualsIgnoreCase(s, "quit") <==>
      |s| == 4 && (s[0] == 'q' || s[0] == 'Q') && (s[1] == 'u' || s[1] == 'U') &&
      (s[2] == 'i' || s[2] == 'I' || s[2] == '\U{0131}' || s[2] == '\U{0130}') &&
      (s[3] == 't' || s[3] == 'T')
  {
    EqualsIgnoreCaseCharwise(s, "quit");
  }

  /** One line of the console that did something. */
  datatype Event =
    | ShowedExamples               // `help`: the fixed example catalogue is printed
    | Ran(sql: string, report: Report)

  datatype Ending =
    | Goodbye       // `quit` or `exit`
    | NoMoreInput   // `Scanner.nextLine` found no line: NoSuchElementException leaves the loop

  datatype Transcript = Transcript(events: seq<Event>, ending: Ending)

  /**
   * The database as seen after the statements already executed by the console,
   * in order: `session(h)` answers the next statement once the statements `h` ran.
   */
  type Session = seq<string> -> Database

  /** A trimmed line that the console hands to `executeQuery`. */
  predicate IsStatement(line: string) {
    line != "" && !IsHelp(line) && !IsQuit(line)
  }

  /** What one trimmed line other than `quit`/`exit` does, after the statements `history`. */
  function Step(session: Session, history: seq<string>, line: string): seq<Event> {
    if IsHelp(line) then [ShowedExamples]
    else if line != "" then [Ran(line, Run(session(history), line))]
    else []
  }

  /** The console loop over the remaining input lines, after the statements `history`. */
  function Interact(session: Session, history: seq<string>, input: seq<string>): Transcript
    decreases |input|
  {
    if |input| == 0 then Transcript([], NoMoreInput)
    else
      var line := Trim(input[0]);
      if IsQuit(line) then Transcript([], Goodbye)
      else
        var rest := Interact(session, if IsStatement(line) then history + [line] else history, input[1..]);
        Transcript(Step(session, history, line) + rest.events, rest.ending)
  }

  /**
   * The loop's invariant: the events so far, followed by what the remaining
   * lines produce after the statements `history`, make up the whole session.
   */
  ghost predicate Progress(session: Session, input: seq<string>, i: nat, events: seq<Event>, history: seq<string>)
    requires i <= |input|
  {
    var rest := Interact(session, history, input[i..]);
    Interact(session, [], input) == Transcript(events + rest.events, rest.ending)
  }

  /** One line read: the transcript of a line other than `quit`/`exit` followed by the rest. */
  lemma InteractStep(session: Session, history: seq<string>, input: seq<string>)
    requires |input| > 0 && !IsQuit(Trim(input[0]))
    ensures var line := Trim(input[0]);
      var rest := Interact(session, if IsStatement(line) then history + [line] else history, input[1..]);
      Interact(session, history, input) == Transcript(Step(session, history, line) + rest.events, rest.ending)
  {
  }

  lemma InteractEnds(session: Session, history: seq<string>, input: seq<string>)
    requires |input| == 0 || IsQuit(Trim(input[0]))
    ensures Interact(session, history, input).events == []
  {
  }

  lemma ProgressAtQuit(session: Session, input: seq<string>, i: nat, events: seq<Event>, history: seq<string>)
    requires i < |input| && Progress(session, input, i, events, history) && IsQuit(Trim(input[i]))
    ensures Interact(session, [], input) == Transcript(events, Goodbye)
  {
    assert events + [] == events;
  }

  lemma ProgressAtEnd(session: Session, input: seq<string>, events: seq<Event>, history: seq<string>)
    requires Progress(session, input, |input|, events, history)
    ensures Interact(session, [], input) == Transcript(events, NoMoreInput)
  {
    assert input[|input|..] == [];
    assert events + [] == events;
  }

  /** `InteractStep` for the lines from position `i` on. */
  lemma InteractAt(session: Session, history: seq<string>, input: seq<string>, i: nat)
    requires i < |input| && !IsQuit(Trim(input[i]))
    ensures var line := Trim(input[i]);
      var rest := Interact(session, if IsStatement(line) then history + [line] else history, input[i + 1..]);
      Interact(session, history, input[i..]) == Transcript(Step(session, history, line) + rest.events, rest.ending)
  {
    assert input[i..][0] == input[i];
    assert input[i..][1..] == input[i + 1..];
    InteractStep(session, history, input[i..]);
  }

  lemma ProgressStep(session: Session, input: seq<string>, i: nat, events: seq<Event>, history: seq<string>)
    requires i < |input| && Progress(session, input, i, events, history) && !IsQuit(Trim(input[i]))
    ensures var line := Trim(input[i]);
      Progress(session, input, i + 1, events + Step(session, history, line),
               if IsStatement(line) then history + [line] else history)
  {
    var line := Trim(input[i]);
    var next := if IsStatement(line) then history + [line] else history;
    var step := Step(session, history, line);
    var rest := Interact(session, next, input[i + 1..]);
    InteractAt(session, history, input, i);
    EventsAssociative(events, step, rest.events);
  }

  lemma EventsAssociative(a: seq<Event>, b: seq<Event>, c: seq<Event>)
    ensures (a + b) + c == a + (b + c)
  {
  }

  /**
   * One pass of the loop after the `quit`/`exit` test: `help` prints the
   * examples, any other non-empty line is executed, an empty line is skipped.
   */
  method Dispatch(session: Session, history: seq<string>, line: string) returns (step: seq<Event>, next: seq<string>)
    requires !IsQuit(line)
    ensures step == Step(session, history, line)
    ensures next == if IsStatement(line) then history + [line] else history
  {
    if IsHelp(line) {
      step, next := [ShowedExamples], history;
    } else if line != "" {
      var report := ExecuteQuery(session(history), line);
      step, next := [Ran(line, report)], history + [line];
    } else {
      step, next := [], history;
    }
  }

  /** `startInteractiveMode`: `while (true)` reading and trimming one line, then leaving or dispatching it. */
  method StartInteractiveMode(session: Session, input: seq<string>) returns (t: Transcript)
    ensures t == Interact(session, [], input)
  {
    var events: seq<Event> := [];
    var history: seq<string> := [];
    var i := 0;
    assert input[0..] == input;
    while i < |input|
      invariant 0 <= i <= |input|
      invariant Progress(session, input, i, events, history)
    {
      var line := Trim(input[i]);
      if IsQuit(line) {
        ProgressAtQuit(session, input, i, events, history);
        return Transcript(events, Goodbye);
      }
      ProgressStep(session, input, i, events, history);
      var step;
      step, history := Dispatch(session, history, line);
      events := events + step;
      i := i + 1;
    }
    ProgressAtEnd(session, input, events, history);
    return Transcript(events, NoMoreInput);
  }

  /** The statements the console executed, in order. */
  function Executed(events: seq<Event>): seq<string> {
    if |events| == 0 then []
    else (if events[0].Ran? then [events[0].sql] else []) + Executed(events[1..])
  }

  /** The statements a sequence of typed lines stands for, trimmed, in order. */
  function Commands(lines: seq<string>): seq<string> {
    if |lines| == 0 then []
    else (if IsStatement(Trim(lines[0])) then [Trim(lines[0])] else []) + Commands(lines[1..])
  }

  predicate HasQuit(input: seq<string>) {
    exists i :: 0 <= i < |input| && IsQuit(Trim(input[i]))
  }

  /** The lines read before the first `quit`/`exit`, or all of them. */
  function BeforeQuit(input: seq<string>): (p: seq<string>)
    ensures |p| <= |input| && p == input[..|p|]
    ensures forall i :: 0 <= i < |p| ==> !IsQuit(Trim(input[i]))
    ensures |p| < |input| <==> HasQuit(input)
    ensures |p| < |input| ==> IsQuit(Trim(input[|p|]))
  {
    if |input| == 0 then []
    else if IsQuit(Trim(input[0])) then []
    else
      var rest := BeforeQuit(input[1..]);
      assert forall i :: 1 <= i < |input| ==> input[i] == input[1..][i - 1];
      assert HasQuit(input[1..]) ==> HasQuit(input) by {
        if HasQuit(input[1..]) {
          var i :| 0 <= i < |input[1..]| && IsQuit(Trim(input[1..][i]));
          assert IsQuit(Trim(input[i + 1]));
        }
      }
      [input[0]] + rest
  }

  lemma {:induction false} ExecutedAppend(a: seq<Event>, b: seq<Event>)
    ensures Executed(a + b) == Executed(a) + Executed(b)
  {
    if |a| > 0 {
      assert (a + b)[1..] == a[1..] + b;
      ExecutedAppend(a[1..], b);
    } else {
      assert a + b == b;
    }
  }

  lemma ExecutedStep(session: Session, history: seq<string>, line: string)
    requires !IsQuit(line)
    ensures Executed(Step(session, history, line)) == if IsStatement(line) then [line] else []
  {
    var step := Step(session, history, line);
    if |step| == 1 {
      assert step[1..] == [];
    }
  }

  lemma CommandsCons(line: string, rest: seq<string>)
    ensures Commands([line] + rest) == (if IsStatement(Trim(line)) then [Trim(line)] else []) + Commands(rest)
  {
    assert ([line] + rest)[1..] == rest;
  }

  /** The console executes exactly the statements typed before the first `quit` or `exit`, in order. */
  lemma {:induction false} ExecutesTypedStatements(session: Session, history: seq<string>, input: seq<string>)
    ensures Executed(Interact(session, history, input).events) == Commands(BeforeQuit(input))
    decreases |input|
  {
    if |input| > 0 {
      var line := Trim(input[0]);
      if !IsQuit(line) {
        var next := if IsStatement(line) then history + [line] else history;
        ExecutesTypedStatements(session, next, input[1..]);
        ExecutedAppend(Step(session, history, line), Interact(session, next, input[1..]).events);
        ExecutedStep(session, history, line);
        CommandsCons(input[0], BeforeQuit(input[1..]));
      }
    }
  }

  /** Every statement a line stands for is trimmed, non-empty, and neither `help` nor `quit`/`exit`. */
  lemma {:induction false} CommandsAreStatements(lines: seq<string>)
    ensures forall k :: 0 <= k < |Commands(lines)| ==>
      var s := Commands(lines)[k];
      Trim(s) == s && IsStatement(s)
  {
    if |lines| > 0 {
      CommandsAreStatements(lines[1..]);
      TrimIdempotent(lines[0]);
    }
  }

  lemma {:induction false} GoodbyeAtQuit(session: Session, history: seq<string>, input: seq<string>)
    ensures Interact(session, history, input).ending == Goodbye <==> |BeforeQuit(input)| < |input|
    decreases |input|
  {
    if |input| > 0 && !IsQuit(Trim(input[0])) {
      var line := Trim(input[0]);
      GoodbyeAtQuit(session, if IsStatement(line) then history + [line] else history, input[1..]);
    }
  }

  /** The session ends with the goodbye message exactly when some line is `quit` or `exit`. */
  lemma GoodbyeIffQuit(session: Session, input: seq<string>)
    ensures Interact(session, [], input).ending == Goodbye <==> HasQuit(input)
  {
    GoodbyeAtQuit(session, [], input);
  }

  lemma {:induction false} StopsAtQuit(session: Session, history: seq<string>, input: seq<string>, more: seq<string>)
    requires |BeforeQuit(input)| < |input|
    ensures Interact(session, history, input + more) == Interact(session, history, input)
    decreases |input|
  {
    var line := Trim(input[0]);
    assert (input + more)[0] == input[0];
    if !IsQuit(line) {
      assert (input + more)[1..] == input[1..] + more;
      StopsAtQuit(session, if IsStatement(line) then history + [line] else history, input[1..], more);
    }
  }

  /** Nothing typed after `quit` or `exit` is read: the session is the same whatever follows. */
  lemma NothingAfterQuit(session: Session, input: seq<string>, more: seq<string>)
    requires HasQuit(input)
    ensures Interact(session, [], input + more) == Interact(session, [], input)
  {
    StopsAtQuit(session, [], input, more);
  }

  /** The tail case: an event after the first line's events sees that line's statement too. */
  lemma SeesAcrossStep(session: Session, history: seq<string>, line: string, rest: seq<Event>, k: nat)
    requires !IsQuit(line)
    requires |Step(session, history, line)| <= k < |Step(session, history, line)| + |rest|
    requires var next := if IsStatement(line) then history + [line] else history;
      var j := k - |Step(session, history, line)|;
      rest[j].Ran? ==> rest[j].report == Run(session(next + Executed(rest[..j])), rest[j].sql)
    ensures var e := Step(session, history, line) + rest;
      e[k].Ran? ==> e[k].report == Run(session(history + Executed(e[..k])), e[k].sql)
  {
    var step := Step(session, history, line);
    var e := step + rest;
    var j := k - |step|;
    assert e[k] == rest[j];
    assert e[..k] == step + rest[..j];
    ExecutedAppend(step, rest[..j]);
    ExecutedStep(session, history, line);
    var next := if IsStatement(line) then history + [line] else history;
    assert history + Executed(e[..k]) == next + Executed(rest[..j]);
  }

  /**
   * Each statement runs against the database as left by every statement the
   * console executed before it, in the order they were typed.
   */
  lemma {:induction false} StatementsSeeEarlierOnes(session: Session, history: seq<string>, input: seq<string>, k: nat)
    requires k < |Interact(session, history, input).events|
    requires Interact(session, history, input).events[k].Ran?
    ensures var e := Interact(session, history, input).events;
            e[k].report == Run(session(history + Executed(e[..k])), e[k].sql)
    decreases |input|, 1
  {
    if |input| == 0 || IsQuit(Trim(input[0])) {
      InteractEnds(session, history, input);
      assert false;
    }
    InteractStep(session, history, input);
    if k < |Step(session, history, Trim(input[0]))| {
      assert k == 0 && history + [] == history;
    } else {
      SeeEarlierAfterFirstLine(session, history, input, k);
    }
  }

  /** The case of `StatementsSeeEarlierOnes` for an event produced after the first line. */
  lemma {:induction false} SeeEarlierAfterFirstLine(session: Session, history: seq<string>, input: seq<string>, k: nat)
    requires |input| > 0 && !IsQuit(Trim(input[0]))
    requires |Step(session, history, Trim(input[0]))| <= k < |Interact(session, history, input).events|
    ensures var e := Interact(session, history, input).events;
            e[k].Ran? ==> e[k].report == Run(session(history + Executed(e[..k])), e[k].sql)
    decreases |input|, 0
  {
    var line := Trim(input[0]);
    var j := k - |Step(session, history, line)|;
    var next := if IsStatement(line) then history + [line] else history;
    var rest := Interact(session, next, input[1..]).events;
    InteractStep(session, history, input);
    if rest[j].Ran? {
      StatementsSeeEarlierOnes(session, next, input[1..], j);
    }
    SeesAcrossStep(session, history, line, rest, k);
  }
}
