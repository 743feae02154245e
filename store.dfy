/** The MySQL database behind the insertion script, as the script sees it
    through pymysql: tables of rows with an auto-increment key, a session that
    remembers `LAST_INSERT_ID()`, and a cursor holding `rowcount` and the
    pending result set.  `State` and the functions over it are the meaning of
    each call; `Database`, `Connection` and `Cursor` are the objects the script
    drives, with methods proved against those functions. */
module Store {
  import opened Results
  import opened Text
  import opened Json
  import opened Sql

  /** A row as a `DictCursor` returns it: column name to value. */
  type Row = map<string, Value>

  /** A table: its columns in order, the auto-increment key column, its rows
      in insertion order, and the next key value the server will hand out. */
  datatype Table = Table(columns: seq<string>, key: string, rows: seq<Row>, nextId: nat)

  type Tables = map<string, Table>

  datatype DbError =
    | SqlError(code: nat, msg: string)   // raised by the server
    | FormatError(msg: string)           // raised by pymysql's escaping or `query % args`, before sending

  /** What one session and its cursor hold. */
  datatype State = State(tables: Tables, lastInsertId: nat, rowcount: int, rows: seq<Row>)

  predicate Distinct(cs: seq<string>) {
    forall i, j :: 0 <= i < j < |cs| ==> cs[i] != cs[j]
  }

  function IndexOf(cs: seq<string>, c: string): (i: nat)
    requires c in cs
    ensures i < |cs| && cs[i] == c && forall j :: 0 <= j < i ==> cs[j] != c
  {
    if cs[0] == c then 0 else 1 + IndexOf(cs[1..], c)
  }

  // ------------------------------------------------------------ inserts

  /** The row `INSERT INTO t (cols) VALUES (vals)` adds: the given values as
      the server stores them,
      the next key when the key column is not given, NULL elsewhere. */
  function NewRow(tb: Table, cols: seq<string>, vals: seq<Value>): Row
    requires |vals| == |cols|
  {
    map c | c in tb.columns ::
      if c in cols then Stored(vals[IndexOf(cols, c)])
      else if c == tb.key then VInt(tb.nextId)
      else VNone
  }

  function InsertOne(tb: Table, cols: seq<string>, vals: seq<Value>): Table
    requires |vals| == |cols|
  {
    tb.(rows := tb.rows + [NewRow(tb, cols, vals)],
        nextId := if tb.key in cols then tb.nextId else tb.nextId + 1)
  }

  function InsertAll(tb: Table, cols: seq<string>, argsList: seq<seq<Value>>): Table
    requires forall i :: 0 <= i < |argsList| ==> |argsList[i]| == |cols|
    decreases |argsList|
  {
    if argsList == [] then tb
    else InsertAll(InsertOne(tb, cols, argsList[0]), cols, argsList[1..])
  }

  /** A value pymysql's escaping cannot render: a dict, or a list holding one. */
  predicate HoldsDict(v: Value)
    decreases v
  {
    match v
    case VDict(_) => true
    case VList(xs) => exists i :: 0 <= i < |xs| && HoldsDict(xs[i])
    case _ => false
  }

  /** A value pymysql renders as one SQL literal: not a dict and not a list. */
  predicate Scalar(v: Value) {
    !v.VDict? && !v.VList?
  }

  /** A list rendered with an empty pair of parentheses somewhere inside. */
  predicate HoldsEmptyList(v: Value)
    decreases v
  {
    match v
    case VList(xs) => xs == [] || exists i :: 0 <= i < |xs| && HoldsEmptyList(xs[i])
    case _ => false
  }

  /** A list the server reads as a row value: once the parentheses around a
      single element are peeled off, a tuple of two or more elements. */
  predicate RowValue(v: Value)
    decreases v
  {
    match v
    case VList(xs) => |xs| >= 2 || (|xs| == 1 && RowValue(xs[0]))
    case _ => false
  }

  /** A value the server stores in one column: a single literal inside any
      number of one-element lists, which pymysql renders as `('x')`, `(('x'))`, … */
  predicate Storable(v: Value)
    decreases v
  {
    match v
    case VDict(_) => false
    case VList(xs) => |xs| == 1 && Storable(xs[0])
    case _ => true
  }

  /** What the server stores for a value: the literal inside the parentheses. */
  function Stored(v: Value): (r: Value)
    ensures !v.VList? ==> r == v
    ensures Storable(v) ==> Scalar(r)
    decreases v
  {
    match v
    case VList(xs) => if |xs| == 1 then Stored(xs[0]) else v
    case _ => v
  }

  /** A value is storable exactly when none of the three refusals applies. */
  lemma {:induction false} StorableIff(v: Value)
    ensures Storable(v) <==> !HoldsDict(v) && !HoldsEmptyList(v) && !RowValue(v)
    decreases v
  {
    match v
    case VList(xs) =>
      if |xs| == 1 {
        StorableIff(xs[0]);
        assert forall i :: 0 <= i < |xs| ==> xs[i] == xs[0];
      } else if |xs| == 0 {
        assert HoldsEmptyList(v);
      } else {
        assert RowValue(v);
      }
    case VDict(_) =>
    case _ =>
  }

  /** Every value of every tuple is stored in one column. */
  predicate AllStorable(argsList: seq<seq<Value>>) {
    forall i, j :: 0 <= i < |argsList| && 0 <= j < |argsList[i]| ==> Storable(argsList[i][j])
  }

  /** pymysql's `mogrify`: each argument is escaped first, and a dict raises;
      then `query % args`, where the argument count must match the `%s` count. */
  function FormatCheck(placeholders: nat, args: seq<Value>): Option<DbError> {
    if exists i :: 0 <= i < |args| && HoldsDict(args[i]) then Some(FormatError("dict can not be used as parameter"))
    else if |args| < placeholders then Some(FormatError("not enough arguments for format string"))
    else if |args| > placeholders then Some(FormatError("not all arguments converted during string formatting"))
    else None
  }

  function FirstFormatError(placeholders: nat, argsList: seq<seq<Value>>): (r: Option<DbError>)
    ensures r.None? <==> forall i :: 0 <= i < |argsList| ==>
      |argsList[i]| == placeholders && forall j :: 0 <= j < |argsList[i]| ==> !HoldsDict(argsList[i][j])
  {
    if argsList == [] then None
    else if FormatCheck(placeholders, argsList[0]).Some? then FormatCheck(placeholders, argsList[0])
    else FirstFormatError(placeholders, argsList[1..])
  }

  /** The server's checks on `INSERT INTO t (cols)`. */
  function InsertCheck(tables: Tables, t: string, cols: seq<string>): Option<DbError> {
    if t !in tables then Some(SqlError(1146, "Table '" + t + "' doesn't exist"))
    else if exists i :: 0 <= i < |cols| && cols[i] !in tables[t].columns then
      Some(SqlError(1054, "Unknown column in 'field list'"))
    else if !Distinct(cols) then Some(SqlError(1110, "Column specified twice"))
    else None
  }

  /** The server's reading of list arguments, which pymysql renders as a
      parenthesised tuple: `()` at any depth is a syntax error, found when the
      text is parsed; a tuple of two or more is a row value where the VALUES
      list expects one column; `(x)` is just `x`. */
  function EmptyListCheck(argsList: seq<seq<Value>>): Option<DbError> {
    if exists i, j :: 0 <= i < |argsList| && 0 <= j < |argsList[i]| && HoldsEmptyList(argsList[i][j]) then
      Some(SqlError(1064, "You have an error in your SQL syntax"))
    else None
  }

  function OperandCheck(argsList: seq<seq<Value>>): Option<DbError> {
    if exists i, j :: 0 <= i < |argsList| && 0 <= j < |argsList[i]| && RowValue(argsList[i][j]) then
      Some(SqlError(1241, "Operand should contain 1 column(s)"))
    else None
  }

  /** One INSERT statement carrying one row per argument tuple; it is applied
      whole or not at all.  `LAST_INSERT_ID()` becomes the first generated key
      and is left alone when no key is generated. */
  function InsertStatement(st: State, t: string, cols: seq<string>, argsList: seq<seq<Value>>): Result<State, DbError> {
    var fmt := FirstFormatError(|cols|, argsList);
    if fmt.Some? then Err(fmt.value)
    else if EmptyListCheck(argsList).Some? then Err(EmptyListCheck(argsList).value)
    else
      var chk := InsertCheck(st.tables, t, cols);
      if chk.Some? then Err(chk.value)
      else if OperandCheck(argsList).Some? then Err(OperandCheck(argsList).value)
      else
        var tb := st.tables[t];
        var generated := tb.key !in cols && argsList != [];
        Ok(State(st.tables[t := InsertAll(tb, cols, argsList)],
                 if generated then tb.nextId else st.lastInsertId,
                 |argsList|, []))
  }

  function MatchingRows(rows: seq<Row>, c: string, k: nat): (r: seq<Row>)
    ensures forall x :: x in r <==> x in rows && c in x && x[c] == VInt(k)
  {
    if rows == [] then []
    else (if c in rows[0] && rows[0][c] == VInt(k) then [rows[0]] else []) + MatchingRows(rows[1..], c, k)
  }

  /** The server's message for an unknown column in a WHERE clause. */
  function UnknownColumn(c: string): string {
    "Unknown column '" + c + "' in 'where clause'"
  }

  /** `cursor.execute(text, args)`. */
  function Executed(st: State, text: string, args: seq<Value>): Result<State, DbError> {
    match Parse(text)
    case None =>
      // the `%s` count of an unreadable text is not modelled: it fails either way
      Err(SqlError(1064, "You have an error in your SQL syntax"))
    case Some(Insert(t, cols)) => InsertStatement(st, t, cols, [args])
    case Some(LastInsertId) =>
      var fmt := FormatCheck(0, args);
      if fmt.Some? then Err(fmt.value)
      else Ok(st.(rowcount := 1, rows := [map["LAST_INSERT_ID()" := VInt(st.lastInsertId)]]))
    case Some(SelectWhere(t, c, k)) =>
      var fmt := FormatCheck(0, args);
      if fmt.Some? then Err(fmt.value)
      else if t !in st.tables then Err(SqlError(1146, "Table '" + t + "' doesn't exist"))
      else if c !in st.tables[t].columns then Err(SqlError(1054, UnknownColumn(c)))
      else
        var found := MatchingRows(st.tables[t].rows, c, k);
        Ok(st.(rowcount := |found|, rows := found))
  }

  /** `execute` once per tuple, `rowcount` being the sum. */
  function ExecutedEach(st: State, text: string, argsList: seq<seq<Value>>, total: int): Result<State, DbError>
    decreases |argsList|
  {
    if argsList == [] then Ok(st.(rowcount := total))
    else
      var next :- Executed(st, text, argsList[0]);
      ExecutedEach(next, text, argsList[1..], total + next.rowcount)
  }

  /** `cursor.executemany(text, argsList)`: nothing at all for an empty list; an
      INSERT becomes one multi-row statement; anything else runs per tuple. */
  function ExecutedMany(st: State, text: string, argsList: seq<seq<Value>>): Result<State, DbError> {
    if argsList == [] then Ok(st)
    else match Parse(text)
      case Some(Insert(t, cols)) => InsertStatement(st, t, cols, argsList)
      case _ => ExecutedEach(st, text, argsList, 0)
  }

  /** The session and cursor after a call that raised `e`.  The server
      applies nothing of a failed statement.  pymysql clears the cursor's
      result (`rowcount` 0, no rows) before it sends the text, so a server
      error leaves the cursor cleared; a format error is raised before that
      and leaves it as it was. */
  function Failed(st: State, e: DbError): State {
    if e.SqlError? then st.(rowcount := 0, rows := []) else st
  }

  /** `cursor.fetchone()` */
  function Fetched(st: State): (Option<Row>, State) {
    if st.rows == [] then (None, st) else (Some(st.rows[0]), st.(rows := st.rows[1..]))
  }

  // ------------------------------------------------------------ properties

  /** Every table keeps its columns and key, and its old rows are a prefix of
      its new ones: the statements the script sends only insert. */
  predicate Grows(a: Tables, b: Tables) {
    && a.Keys == b.Keys
    && forall t :: t in a ==>
         && b[t].columns == a[t].columns && b[t].key == a[t].key
         && |a[t].rows| <= |b[t].rows| && b[t].rows[..|a[t].rows|] == a[t].rows
  }

  /** The same tables with the same columns, keys and rows; the
      auto-increment counters may differ. */
  predicate SameRows(a: Tables, b: Tables) {
    && a.Keys == b.Keys
    && forall t :: t in a ==> b[t].columns == a[t].columns && b[t].key == a[t].key && b[t].rows == a[t].rows
  }

  /** What a rollback leaves: the committed rows, with each table's
      auto-increment counter where the session left it.  InnoDB does not give
      back the keys a rolled-back transaction was handed. */
  function RolledBack(committed: Tables, session: Tables): Tables {
    map t | t in committed :: if t in session then committed[t].(nextId := session[t].nextId) else committed[t]
  }

  /** A rollback restores the committed rows and keeps the session's counters. */
  lemma RolledBackRestores(committed: Tables, session: Tables)
    ensures SameRows(committed, RolledBack(committed, session))
    ensures forall t :: t in committed && t in session ==> RolledBack(committed, session)[t].nextId == session[t].nextId
  {
  }

  /** Rolling back with nothing pending changes nothing. */
  lemma RolledBackSelf(tables: Tables)
    ensures RolledBack(tables, tables) == tables
  {
  }

  lemma GrowsTransitive(a: Tables, b: Tables, c: Tables)
    requires Grows(a, b) && Grows(b, c)
    ensures Grows(a, c)
  {
    forall t | t in a
      ensures c[t].rows[..|a[t].rows|] == a[t].rows
    {
      assert c[t].rows[..|a[t].rows|] == c[t].rows[..|b[t].rows|][..|a[t].rows|];
    }
  }

  /** Inserting tuples appends one row per tuple and changes nothing else. */
  lemma {:induction false} InsertAllAppends(tb: Table, cols: seq<string>, argsList: seq<seq<Value>>)
    requires forall i :: 0 <= i < |argsList| ==> |argsList[i]| == |cols|
    ensures var r := InsertAll(tb, cols, argsList);
      && r.columns == tb.columns && r.key == tb.key
      && |r.rows| == |tb.rows| + |argsList| && r.rows[..|tb.rows|] == tb.rows
    decreases |argsList|
  {
    if argsList != [] {
      var next := InsertOne(tb, cols, argsList[0]);
      InsertAllAppends(next, cols, argsList[1..]);
      var r := InsertAll(tb, cols, argsList);
      assert r.rows[..|tb.rows|] == r.rows[..|next.rows|][..|tb.rows|];
    }
  }

  lemma InsertStatementGrows(st: State, t: string, cols: seq<string>, argsList: seq<seq<Value>>)
    requires InsertStatement(st, t, cols, argsList).Ok?
    ensures Grows(st.tables, InsertStatement(st, t, cols, argsList).value.tables)
    ensures InsertStatement(st, t, cols, argsList).value.rowcount == |argsList|
  {
    InsertAllAppends(st.tables[t], cols, argsList);
  }

  lemma ExecuteGrows(st: State, text: string, args: seq<Value>)
    requires Executed(st, text, args).Ok?
    ensures Grows(st.tables, Executed(st, text, args).value.tables)
  {
    match Parse(text) {
      case Some(Insert(t, cols)) => InsertStatementGrows(st, t, cols, [args]);
      case Some(LastInsertId) =>
      case Some(SelectWhere(_, _, _)) =>
    }
  }

  lemma {:induction false} ExecuteEachGrows(st: State, text: string, argsList: seq<seq<Value>>, total: int)
    requires ExecutedEach(st, text, argsList, total).Ok?
    ensures Grows(st.tables, ExecutedEach(st, text, argsList, total).value.tables)
    decreases |argsList|
  {
    if argsList != [] {
      var next := Executed(st, text, argsList[0]).value;
      ExecuteGrows(st, text, argsList[0]);
      ExecuteEachGrows(next, text, argsList[1..], total + next.rowcount);
      GrowsTransitive(st.tables, next.tables, ExecutedEach(st, text, argsList, total).value.tables);
    }
  }

  lemma ExecuteManyGrows(st: State, text: string, argsList: seq<seq<Value>>)
    requires ExecutedMany(st, text, argsList).Ok?
    ensures Grows(st.tables, ExecutedMany(st, text, argsList).value.tables)
  {
    if argsList != [] {
      match Parse(text) {
        case Some(Insert(t, cols)) => InsertStatementGrows(st, t, cols, argsList);
        case _ => ExecuteEachGrows(st, text, argsList, 0);
      }
    }
  }

  /** The row an insert adds holds each given value, as stored, under its own
      column, position for position. */
  lemma NewRowAligned(tb: Table, cols: seq<string>, vals: seq<Value>, i: nat)
    requires |vals| == |cols| && Distinct(cols) && i < |cols| && cols[i] in tb.columns
    ensures NewRow(tb, cols, vals)[cols[i]] == Stored(vals[i])
  {
    assert IndexOf(cols, cols[i]) == i;
  }

  /** An INSERT the server accepts: a known table, distinct known columns,
      one storable value per column in every tuple. */
  predicate Acceptable(tables: Tables, t: string, cols: seq<string>, argsList: seq<seq<Value>>) {
    && WellFormed(Insert(t, cols)) && t in tables && Distinct(cols)
    && (forall i :: 0 <= i < |cols| ==> cols[i] in tables[t].columns)
    && (forall i :: 0 <= i < |argsList| ==> |argsList[i]| == |cols|)
    && AllStorable(argsList)
  }

  /** Tuples of storable values of the right length pass every argument check. */
  lemma StorablesPass(n: nat, argsList: seq<seq<Value>>)
    requires AllStorable(argsList) && forall i :: 0 <= i < |argsList| ==> |argsList[i]| == n
    ensures FirstFormatError(n, argsList).None?
    ensures EmptyListCheck(argsList).None? && OperandCheck(argsList).None?
  {
    forall i, j | 0 <= i < |argsList| && 0 <= j < |argsList[i]|
      ensures !HoldsDict(argsList[i][j]) && !HoldsEmptyList(argsList[i][j]) && !RowValue(argsList[i][j])
    {
      StorableIff(argsList[i][j]);
    }
  }

  /** An INSERT that succeeds was given only storable values: no dict, no
      empty list anywhere, no row value. */
  lemma InsertTakesStorables(st: State, t: string, cols: seq<string>, argsList: seq<seq<Value>>)
    requires InsertStatement(st, t, cols, argsList).Ok?
    ensures AllStorable(argsList)
  {
    forall i, j | 0 <= i < |argsList| && 0 <= j < |argsList[i]|
      ensures Storable(argsList[i][j])
    {
      StorableIff(argsList[i][j]);
    }
  }

  /** A dict among the arguments makes pymysql raise before anything is sent. */
  lemma DictArgumentRaises(st: State, t: string, cols: seq<string>, argsList: seq<seq<Value>>, i: nat, j: nat)
    requires i < |argsList| && j < |argsList[i]| && argsList[i][j].VDict?
    ensures InsertStatement(st, t, cols, argsList).Err?
    ensures InsertStatement(st, t, cols, argsList).error.FormatError?
  {
    assert HoldsDict(argsList[i][j]);
    FirstFormatErrorIsFormat(|cols|, argsList);
  }

  /** A list among otherwise well-formed arguments: an empty list anywhere in
      it is a syntax error before the table is looked at; a row value is
      refused once the table and columns pass. */
  lemma ListArgumentRefused(st: State, t: string, cols: seq<string>, argsList: seq<seq<Value>>, i: nat, j: nat)
    requires i < |argsList| && j < |argsList[i]|
    requires FirstFormatError(|cols|, argsList).None?
    ensures HoldsEmptyList(argsList[i][j]) ==>
      InsertStatement(st, t, cols, argsList) == Err(SqlError(1064, "You have an error in your SQL syntax"))
    ensures RowValue(argsList[i][j]) ==>
      && InsertStatement(st, t, cols, argsList).Err?
      && InsertStatement(st, t, cols, argsList).error.SqlError?
      && InsertStatement(st, t, cols, argsList).error.code in {1064, 1146, 1054, 1110, 1241}
    ensures RowValue(argsList[i][j]) && EmptyListCheck(argsList).None? && InsertCheck(st.tables, t, cols).None? ==>
      InsertStatement(st, t, cols, argsList) == Err(SqlError(1241, "Operand should contain 1 column(s)"))
  {
  }

  /** An acceptable multi-row INSERT adds its rows to the one table. */
  lemma InsertAccepted(st: State, t: string, cols: seq<string>, argsList: seq<seq<Value>>)
    requires Acceptable(st.tables, t, cols, argsList) && argsList != []
    ensures ExecutedMany(st, Render(Insert(t, cols)), argsList) ==
      Ok(State(st.tables[t := InsertAll(st.tables[t], cols, argsList)],
               if st.tables[t].key in cols then st.lastInsertId else st.tables[t].nextId,
               |argsList|, []))
  {
    ReadBack(Insert(t, cols));
    StorablesPass(|cols|, argsList);
    assert !exists i :: 0 <= i < |cols| && cols[i] !in st.tables[t].columns;
  }

  /** The same for a one-row `execute`. */
  lemma InsertOneAccepted(st: State, t: string, cols: seq<string>, args: seq<Value>)
    requires Acceptable(st.tables, t, cols, [args]) && |args| == |cols|
    ensures Executed(st, Render(Insert(t, cols)), args) ==
      Ok(State(st.tables[t := InsertOne(st.tables[t], cols, args)],
               if st.tables[t].key in cols then st.lastInsertId else st.tables[t].nextId,
               1, []))
  {
    ReadBack(Insert(t, cols));
    StorablesPass(|cols|, [args]);
    assert !exists i :: 0 <= i < |cols| && cols[i] !in st.tables[t].columns;
    assert [args][1..] == [];
    assert InsertAll(st.tables[t], cols, [args]) == InsertOne(st.tables[t], cols, args);
  }

  /** A tuple with the wrong number of values fails the whole `executemany`. */
  lemma InsertBadTuple(st: State, t: string, cols: seq<string>, argsList: seq<seq<Value>>, k: nat)
    requires WellFormed(Insert(t, cols)) && k < |argsList| && |argsList[k]| != |cols|
    ensures ExecutedMany(st, Render(Insert(t, cols)), argsList).Err?
    ensures ExecutedMany(st, Render(Insert(t, cols)), argsList).error.FormatError?
  {
    ReadBack(Insert(t, cols));
    assert FirstFormatError(|cols|, argsList).Some?;
    FirstFormatErrorIsFormat(|cols|, argsList);
  }

  lemma {:induction false} FirstFormatErrorIsFormat(n: nat, argsList: seq<seq<Value>>)
    requires FirstFormatError(n, argsList).Some?
    ensures FirstFormatError(n, argsList).value.FormatError?
    decreases |argsList|
  {
    if FormatCheck(n, argsList[0]).None? {
      FirstFormatErrorIsFormat(n, argsList[1..]);
    }
  }

  /** The state after a one-row insert that leaves the key to the table: the
      row is appended, the next key is handed out and becomes `LAST_INSERT_ID()`,
      `rowcount` is 1 and no result rows are pending. */
  function KeyedInsert(st: State, t: string, cols: seq<string>, vals: seq<Value>): State
    requires t in st.tables && |vals| == |cols|
  {
    var tb := st.tables[t];
    State(st.tables[t := tb.(rows := tb.rows + [NewRow(tb, cols, vals)], nextId := tb.nextId + 1)], tb.nextId, 1, [])
  }

  /** A one-row insert that does not name the key column hands out the next key. */
  lemma InsertGeneratedKey(st: State, t: string, cols: seq<string>, vals: seq<Value>)
    requires Acceptable(st.tables, t, cols, [vals]) && |vals| == |cols| && st.tables[t].key !in cols
    ensures Executed(st, Render(Insert(t, cols)), vals) == Ok(KeyedInsert(st, t, cols, vals))
  {
    InsertOneAccepted(st, t, cols, vals);
    FreshKeyState(Executed(st, Render(Insert(t, cols)), vals), st, t, cols, vals);
  }

  lemma FreshKeyState(r: Result<State, DbError>, st: State, t: string, cols: seq<string>, vals: seq<Value>)
    requires t in st.tables && |vals| == |cols| && st.tables[t].key !in cols
    requires r == Ok(State(st.tables[t := InsertOne(st.tables[t], cols, vals)],
                           if st.tables[t].key in cols then st.lastInsertId else st.tables[t].nextId, 1, []))
    ensures r == Ok(KeyedInsert(st, t, cols, vals))
  {
  }

  /** The rows a multi-row insert adds hold, in each given column, the value
      at the same position of their own tuple, as stored. */
  lemma {:induction false} InsertAllCells(tb: Table, cols: seq<string>, argsList: seq<seq<Value>>, i: nat, j: nat)
    requires forall k :: 0 <= k < |argsList| ==> |argsList[k]| == |cols|
    requires Distinct(cols) && i < |argsList| && j < |cols| && cols[j] in tb.columns
    ensures |InsertAll(tb, cols, argsList).rows| == |tb.rows| + |argsList|
    ensures var row := InsertAll(tb, cols, argsList).rows[|tb.rows| + i];
      cols[j] in row && row[cols[j]] == Stored(argsList[i][j])
    decreases |argsList|
  {
    InsertAllAppends(tb, cols, argsList);
    var next := InsertOne(tb, cols, argsList[0]);
    InsertAllAppends(next, cols, argsList[1..]);
    if i == 0 {
      NewRowAligned(tb, cols, argsList[0], j);
      assert InsertAll(tb, cols, argsList).rows[..|next.rows|] == next.rows;
      assert InsertAll(tb, cols, argsList).rows[|tb.rows|] == next.rows[|tb.rows|];
    } else {
      InsertAllCells(next, cols, argsList[1..], i - 1, j);
    }
  }

  /** The row a one-row insert adds: the given values, as stored, under their columns,
      the next key under the key column when it is not given, NULL elsewhere. */
  lemma NewRowContents(tb: Table, cols: seq<string>, vals: seq<Value>)
    requires |vals| == |cols| && Distinct(cols) && forall i :: 0 <= i < |cols| ==> cols[i] in tb.columns
    ensures forall i :: 0 <= i < |cols| ==> NewRow(tb, cols, vals)[cols[i]] == Stored(vals[i])
    ensures tb.key in tb.columns && tb.key !in cols ==> NewRow(tb, cols, vals)[tb.key] == VInt(tb.nextId)
    ensures forall c :: c in tb.columns && c !in cols && c != tb.key ==> NewRow(tb, cols, vals)[c] == VNone
  {
    forall i | 0 <= i < |cols|
      ensures NewRow(tb, cols, vals)[cols[i]] == Stored(vals[i])
    {
      NewRowAligned(tb, cols, vals, i);
    }
  }

  /** A one-row insert that generates its key appends a row holding that key
      and makes the key the session's `LAST_INSERT_ID()`. */
  lemma InsertGeneratesKey(st: State, t: string, cols: seq<string>, args: seq<Value>)
    requires t in st.tables && st.tables[t].key in st.tables[t].columns && st.tables[t].key !in cols
    requires InsertStatement(st, t, cols, [args]).Ok?
    ensures var s := InsertStatement(st, t, cols, [args]).value;
      var tb := st.tables[t];
      && s.lastInsertId == tb.nextId
      && t in s.tables && s.tables[t].columns == tb.columns
      && s.tables[t].rows == tb.rows + [NewRow(tb, cols, args)]
      && NewRow(tb, cols, args)[tb.key] == VInt(tb.nextId)
  {
    assert |[args][0]| == |cols|;
    var tb := st.tables[t];
    assert [args][1..] == [];
    assert InsertAll(tb, cols, [args]) == InsertOne(tb, cols, args);
  }

  /** `SELECT LAST_INSERT_ID()` yields one row holding the session's last
      generated key and changes nothing else. */
  lemma LastInsertIdRead(st: State)
    ensures Executed(st, LastInsertIdText, []) ==
      Ok(st.(rowcount := 1, rows := [map["LAST_INSERT_ID()" := VInt(st.lastInsertId)]]))
  {
  }

  /** A text the server reads as a lookup, or not at all, changes no table. */
  lemma LookupReads(st: State, text: string)
    requires Parse(text).None? || Parse(text).value.SelectWhere?
    requires Executed(st, text, []).Ok?
    ensures Executed(st, text, []).value.tables == st.tables
  {
  }

  /** A lookup of `t` by column `c`: error 1146 or 1054 when either is
      unknown, otherwise the matching rows become the result set. */
  lemma LookupSelects(st: State, text: string, t: string, c: string, k: nat)
    requires Parse(text) == Some(SelectWhere(t, c, k))
    ensures Executed(st, text, []) ==
      if t !in st.tables then Err(SqlError(1146, "Table '" + t + "' doesn't exist"))
      else if c !in st.tables[t].columns then Err(SqlError(1054, UnknownColumn(c)))
      else Ok(st.(rowcount := |MatchingRows(st.tables[t].rows, c, k)|, rows := MatchingRows(st.tables[t].rows, c, k)))
  {
  }

  /** A lookup by key value on a table that holds a row with that key finds it. */
  lemma LookupFinds(st: State, t: string, c: string, k: nat, row: Row)
    requires IsIdent(t) && IsIdent(c) && t in st.tables && c in st.tables[t].columns
    requires row in st.tables[t].rows && c in row && row[c] == VInt(k)
    ensures Executed(st, Render(SelectWhere(t, c, k)), []).Ok?
    ensures Executed(st, Render(SelectWhere(t, c, k)), []).value.rows != []
  {
    ReadBack(SelectWhere(t, c, k));
    assert row in MatchingRows(st.tables[t].rows, c, k);
  }

  /** So after such an insert, looking the row up by `LAST_INSERT_ID()` on the
      key column finds it. */
  lemma InsertedRowFound(st: State, t: string, cols: seq<string>, args: seq<Value>)
    requires WellFormed(Insert(t, cols)) && t in st.tables
    requires IsIdent(st.tables[t].key) && st.tables[t].key in st.tables[t].columns && st.tables[t].key !in cols
    requires Executed(st, Render(Insert(t, cols)), args).Ok?
    ensures var s := Executed(st, Render(Insert(t, cols)), args).value;
      var k := st.tables[t].key;
      && s.lastInsertId == st.tables[t].nextId
      && Executed(s, Render(SelectWhere(t, k, s.lastInsertId)), []).Ok?
      && Executed(s, Render(SelectWhere(t, k, s.lastInsertId)), []).value.rows != []
  {
    ReadBack(Insert(t, cols));
    var tb := st.tables[t];
    InsertGeneratesKey(st, t, cols, args);
    var s := InsertStatement(st, t, cols, [args]).value;
    var row := NewRow(tb, cols, args);
    assert row == s.tables[t].rows[|tb.rows|];
    LookupFinds(s, t, tb.key, tb.nextId, row);
  }

  // ------------------------------------------------------------ objects

  /** The committed contents of the database. */
  class Database {
    var tables: Tables

    constructor (tables: Tables)
      ensures this.tables == tables
    {
      this.tables := tables;
    }
  }

  /** A session: what it sees (its own uncommitted inserts included) and its
      `LAST_INSERT_ID()`. */
  class Connection {
    const db: Database
    var tables: Tables
    var lastInsertId: nat
    var isOpen: bool

    /** `pymysql.connect(...)`: a new session sees the committed data. */
    constructor (db: Database)
      ensures this.db == db && tables == db.tables && lastInsertId == 0 && isOpen
    {
      this.db := db;
      tables := db.tables;
      lastInsertId := 0;
      isOpen := true;
    }

    /** `conn.begin()`; MySQL's BEGIN first commits what is pending. */
    method Begin()
      requires isOpen
      modifies db`tables
      ensures db.tables == tables
    {
      db.tables := tables;
    }

    /** `conn.commit()` */
    method Commit()
      requires isOpen
      modifies db`tables
      ensures db.tables == tables
    {
      db.tables := tables;
    }

    /** `conn.rollback()`: the session sees the committed rows again; the
        auto-increment counters, shared by all sessions, stay advanced. */
    method Rollback()
      requires isOpen
      modifies this`tables, db`tables
      ensures db.tables == RolledBack(old(db.tables), old(tables)) && tables == db.tables
    {
      db.tables := RolledBack(db.tables, tables);
      tables := db.tables;
    }

    /** `conn.close()`: the server rolls back what was not committed. */
    method Close()
      requires isOpen
      modifies this`tables, this`isOpen, db`tables
      ensures db.tables == RolledBack(old(db.tables), old(tables)) && tables == db.tables && !isOpen
    {
      db.tables := RolledBack(db.tables, tables);
      tables := db.tables;
      isOpen := false;
    }
  }

  /** `conn.cursor(DictCursor)` */
  class Cursor {
    const conn: Connection
    var rowcount: int
    var rows: seq<Row>
    var isOpen: bool

    constructor (conn: Connection)
      ensures this.conn == conn && rowcount == -1 && rows == [] && isOpen
    {
      this.conn := conn;
      rowcount := -1;
      rows := [];
      isOpen := true;
    }

    /** The session and cursor state the functions above act on. */
    function Current(): State
      reads this, conn
    {
      State(conn.tables, conn.lastInsertId, rowcount, rows)
    }

    method Execute(text: string, args: seq<Value>) returns (err: Option<DbError>)
      requires isOpen && conn.isOpen
      modifies this`rowcount, this`rows, conn`tables, conn`lastInsertId
      ensures match Executed(old(Current()), text, args)
        case Ok(s) => err == None && Current() == s
        case Err(e) => err == Some(e) && Current() == Failed(old(Current()), e)
    {
      var r := Executed(Current(), text, args);
      if r.Err? {
        if r.error.SqlError? {
          rowcount, rows := 0, [];
        }
        return Some(r.error);
      }
      conn.tables, conn.lastInsertId, rowcount, rows := r.value.tables, r.value.lastInsertId, r.value.rowcount, r.value.rows;
      return None;
    }

    method ExecuteMany(text: string, argsList: seq<seq<Value>>) returns (err: Option<DbError>)
      requires isOpen && conn.isOpen
      modifies this`rowcount, this`rows, conn`tables, conn`lastInsertId
      ensures match ExecutedMany(old(Current()), text, argsList)
        case Ok(s) => err == None && Current() == s
        case Err(e) => err == Some(e) && Current() == Failed(old(Current()), e)
    {
      var r := ExecutedMany(Current(), text, argsList);
      if r.Err? {
        if r.error.SqlError? {
          rowcount, rows := 0, [];
        }
        return Some(r.error);
      }
      conn.tables, conn.lastInsertId, rowcount, rows := r.value.tables, r.value.lastInsertId, r.value.rowcount, r.value.rows;
      return None;
    }

    method FetchOne() returns (row: Option<Row>)
      requires isOpen
      modifies this`rows
      ensures (row, Current()) == Fetched(old(Current()))
    {
      if rows == [] {
        return None;
      }
      row := Some(rows[0]);
      rows := rows[1..];
    }

    /** `cursor.close()` */
    method Close()
      requires isOpen
      modifies this`isOpen
      ensures !isOpen
    {
      isOpen := false;
    }
  }
}
