/** inserting_JSON_to_DB.py: `insert_single_record`, `insert_multiple_records`
    and `insert_data_from_mapped_json`.  Each step is a function of the
    session state (`Store.State`) and is also a method driving the `Cursor`
    and `Connection` objects, proved to do what that function says. */
module Executor {
  import opened Results
  import opened Text
  import opened Json
  import opened Sql
  import opened Store

  /** The exceptions that can leave `insert_data_from_mapped_json`. */
  datatype Failure =
    | Raised(py: PyError)              // from Python operations on the document
    | Db(db: DbError)                  // from pymysql or the server
    | VerificationFailed(msg: string)  // inserting_JSON_to_DB.py:123

  function LiftPy<T>(r: Result<T, PyError>): Result<T, Failure> {
    match r
    case Ok(v) => Ok(v)
    case Err(e) => Err(Raised(e))
  }

  function LiftDb<T>(r: Result<T, DbError>): Result<T, Failure> {
    match r
    case Ok(v) => Ok(v)
    case Err(e) => Err(Db(e))
  }

  // ----------------------------------------------------- dropping NULLs

  /** `{k: v for k, v in d.items() if v is not None}` */
  function Clean(d: Dict): Dict {
    if d == [] then []
    else (if d[0].value != VNone then [d[0]] else []) + Clean(d[1..])
  }

  /** Exactly the entries whose value is not `None` are kept (falsy ones too)... */
  lemma {:induction false} CleanKeeps(d: Dict)
    ensures forall e :: e in Clean(d) <==> e in d && e.value != VNone
    ensures |Clean(d)| <= |d|
  {
    if d != [] {
      CleanKeeps(d[1..]);
      assert d == [d[0]] + d[1..];
    }
  }

  /** ...in their original order. */
  lemma {:induction false} CleanAppend(a: Dict, b: Dict)
    ensures Clean(a + b) == Clean(a) + Clean(b)
  {
    if a != [] {
      assert (a + b)[1..] == a[1..] + b;
      CleanAppend(a[1..], b);
    } else {
      assert a + b == b;
    }
  }

  // ------------------------------------------------ insert_single_record

  /** inserting_JSON_to_DB.py:22-32 */
  function SingleInsert(st: State, table: Value, columns: Value): Result<State, Failure> {
    var entries :- LiftPy(ItemsMethod(columns));
    var kept := Clean(entries);
    LiftDb(Executed(st, Render(Insert(Str(table), Keys(kept))), Values(kept)))
  }

  method InsertSingleRecord(cursor: Cursor, table: Value, columns: Value) returns (err: Option<Failure>)
    requires cursor.isOpen && cursor.conn.isOpen
    modifies cursor`rowcount, cursor`rows, cursor.conn`tables, cursor.conn`lastInsertId
    ensures match SingleInsert(old(cursor.Current()), table, columns)
      case Ok(s) => err == None && cursor.Current() == s
      case Err(e) => err == Some(e)  // the cursor is left as the failing call left it: the caller rolls back at once
  {
    var items := ItemsMethod(columns);
    if items.Err? {
      return Some(Raised(items.error));
    }
    var kept := Clean(items.value);
    var colNames := Join(Keys(kept), ", ");
    var placeholders := Join(Repeat("%s", |kept|), ", ");
    var values := Values(kept);
    var query := "INSERT INTO " + Str(table) + " (" + colNames + ") VALUES (" + placeholders + ")";
    assert query == Render(Insert(Str(table), Keys(kept)));
    var e := cursor.Execute(query, values);
    if e.Some? {
      return Some(Db(e.value));
    }
    return None;
  }

  /** A single-record insert is the one-row INSERT of the kept columns. */
  lemma SingleInsertStatement(st: State, t: string, d: Dict)
    ensures SingleInsert(st, VStr(t), VDict(d)) ==
      LiftDb(Executed(st, Render(Insert(t, Keys(Clean(d)))), Values(Clean(d))))
  {
    assert ItemsMethod(VDict(d)) == Ok(d);
    assert Str(VStr(t)) == t;
  }

  /** The kept columns are distinct columns of the table, none of them its key. */
  predicate SingleAcceptable(st: State, t: string, d: Dict) {
    var kept := Clean(d);
    && Acceptable(st.tables, t, Keys(kept), [Values(kept)]) && |Values(kept)| == |Keys(kept)|
    && st.tables[t].key !in Keys(kept)
  }

  /** When the kept columns are distinct columns of the table and do not name
      its key, the insert appends one row and hands out the next key, which
      becomes `LAST_INSERT_ID()`; `rowcount` is 1 and nothing else changes. */
  lemma SingleInsertRow(st: State, t: string, d: Dict)
    requires SingleAcceptable(st, t, d)
    ensures SingleInsert(st, VStr(t), VDict(d)) == Ok(KeyedInsert(st, t, Keys(Clean(d)), Values(Clean(d))))
  {
    InsertGeneratedKey(st, t, Keys(Clean(d)), Values(Clean(d)));
    SingleInsertOf(st, t, d, KeyedInsert(st, t, Keys(Clean(d)), Values(Clean(d))));
  }

  lemma SingleInsertOf(st: State, t: string, d: Dict, after: State)
    requires Executed(st, Render(Insert(t, Keys(Clean(d)))), Values(Clean(d))) == Ok(after)
    ensures SingleInsert(st, VStr(t), VDict(d)) == Ok(after)
  {
    SingleInsertStatement(st, t, d);
  }

  /** That row holds each value that is not `None`, as the server stores it, under its own key, the new
      key under the key column, and NULL under every other column. */
  lemma KeptColumnsWritten(tb: Table, d: Dict)
    requires var kept := Clean(d);
      && Distinct(Keys(kept)) && (forall i :: 0 <= i < |kept| ==> kept[i].key in tb.columns)
      && tb.key in tb.columns && tb.key !in Keys(kept)
    ensures var kept := Clean(d);
      var row := NewRow(tb, Keys(kept), Values(kept));
      && (forall i :: 0 <= i < |kept| ==> row[kept[i].key] == Stored(kept[i].value))
      && row[tb.key] == VInt(tb.nextId)
      && (forall c :: c in tb.columns && c !in Keys(kept) && c != tb.key ==> row[c] == VNone)
  {
    var kept := Clean(d);
    var cols := Keys(kept);
    var vals := Values(kept);
    NewRowContents(tb, cols, vals);
    forall i | 0 <= i < |kept|
      ensures NewRow(tb, cols, vals)[kept[i].key] == Stored(kept[i].value)
    {
      assert cols[i] == kept[i].key && vals[i] == kept[i].value;
    }
  }

  // --------------------------------------------- insert_multiple_records

  /** The loop at inserting_JSON_to_DB.py:41-44, `acc` being `cleaned_records`. */
  function CleanRecordsFrom(acc: seq<Dict>, records: seq<Value>): Result<seq<Dict>, PyError>
    decreases |records|
  {
    if records == [] then Ok(acc)
    else
      var entries :- ItemsMethod(records[0]);
      var kept := Clean(entries);
      CleanRecordsFrom(if kept != [] then acc + [kept] else acc, records[1..])
  }

  predicate AllDicts(records: seq<Value>) {
    forall i :: 0 <= i < |records| ==> records[i].VDict?
  }

  /** The cleaned form of each record that keeps a field, in order. */
  function Kept(records: seq<Value>): (r: seq<Dict>)
    requires AllDicts(records)
    ensures forall i :: 0 <= i < |r| ==> r[i] != []
  {
    if records == [] then []
    else
      var kept := Clean(records[0].entries);
      (if kept != [] then [kept] else []) + Kept(records[1..])
  }

  /** The cleaning loop succeeds exactly when every record is a dict, and then
      adds the non-empty cleaned records in order. */
  lemma {:induction false} CleanRecordsFromKept(acc: seq<Dict>, records: seq<Value>)
    ensures CleanRecordsFrom(acc, records).Ok? <==> AllDicts(records)
    ensures AllDicts(records) ==> CleanRecordsFrom(acc, records).value == acc + Kept(records)
    decreases |records|
  {
    if records != [] {
      if records[0].VDict? {
        var kept := Clean(records[0].entries);
        var next := if kept != [] then acc + [kept] else acc;
        CleanRecordsFromKept(next, records[1..]);
        assert AllDicts(records) <==> AllDicts(records[1..]);
      } else {
        assert !AllDicts(records);
      }
    }
  }

  /** `[tuple(rec.values()) for rec in cleaned_records]` */
  function Tuples(cleaned: seq<Dict>): (r: seq<seq<Value>>)
    ensures |r| == |cleaned| && forall i :: 0 <= i < |r| ==> r[i] == Values(cleaned[i])
  {
    seq(|cleaned|, i requires 0 <= i < |cleaned| => Values(cleaned[i]))
  }

  /** inserting_JSON_to_DB.py:35-57 */
  function MultipleInsert(st: State, table: Value, records: Value): Result<State, Failure> {
    if !Truthy(records) then Ok(st)
    else
      var items :- LiftPy(Iterate(records));
      var cleaned :- LiftPy(CleanRecordsFrom([], items));
      if cleaned == [] then Ok(st)
      else
        var query := Render(Insert(Str(table), Keys(cleaned[0])));
        LiftDb(ExecutedMany(st, query, Tuples(cleaned)))
  }

  method InsertMultipleRecords(cursor: Cursor, table: Value, records: Value) returns (err: Option<Failure>)
    requires cursor.isOpen && cursor.conn.isOpen
    modifies cursor`rowcount, cursor`rows, cursor.conn`tables, cursor.conn`lastInsertId
    ensures match MultipleInsert(old(cursor.Current()), table, records)
      case Ok(s) => err == None && cursor.Current() == s
      case Err(e) => err == Some(e)  // the cursor is left as the failing call left it: the caller rolls back at once
  {
    if !Truthy(records) {
      return None;
    }
    var items := Iterate(records);
    if items.Err? {
      return Some(Raised(items.error));
    }
    var cleaned: seq<Dict> := [];
    for i := 0 to |items.value|
      invariant CleanRecordsFrom(cleaned, items.value[i..]) == CleanRecordsFrom([], items.value)
    {
      var record := items.value[i];
      assert items.value[i..][1..] == items.value[i + 1..];
      var entries := ItemsMethod(record);
      if entries.Err? {
        return Some(Raised(entries.error));
      }
      var kept := Clean(entries.value);
      if kept != [] {
        cleaned := cleaned + [kept];
      }
    }
    if cleaned == [] {
      return None;
    }
    var colNames := Join(Keys(cleaned[0]), ", ");
    var placeholders := Join(Repeat("%s", |cleaned[0]|), ", ");
    var query := "INSERT INTO " + Str(table) + " (" + colNames + ") VALUES (" + placeholders + ")";
    var values := Tuples(cleaned);
    assert query == Render(Insert(Str(table), Keys(cleaned[0])));
    var e := cursor.ExecuteMany(query, values);
    if e.Some? {
      return Some(Db(e.value));
    }
    return None;
  }

  /** When every record loses all its fields, nothing is executed and the
      cursor, `rowcount` included, is left as it was. */
  lemma NothingLeftToInsert(st: State, table: Value, records: seq<Value>)
    requires AllDicts(records) && forall i :: 0 <= i < |records| ==> Clean(records[i].entries) == []
    ensures MultipleInsert(st, table, VList(records)) == Ok(st)
  {
    CleanRecordsFromKept([], records);
    if Kept(records) != [] {
      assert Kept(records)[0] in Kept(records);
      KeptFrom(records, 0);
    }
  }

  /** Every kept record is the cleaned form of one of the records. */
  lemma {:induction false} KeptFrom(records: seq<Value>, k: nat)
    requires AllDicts(records) && k < |Kept(records)|
    ensures exists i :: 0 <= i < |records| && Kept(records)[k] == Clean(records[i].entries)
  {
    var kept := Clean(records[0].entries);
    assert Kept(records) == (if kept != [] then [kept] else []) + Kept(records[1..]);
    if kept != [] && k == 0 {
      assert Kept(records)[0] == Clean(records[0].entries);
    } else {
      var k' := if kept != [] then k - 1 else k;
      assert Kept(records)[k] == Kept(records[1..])[k'];
      KeptFrom(records[1..], k');
      var i :| 0 <= i < |records[1..]| && Kept(records[1..])[k'] == Clean(records[1..][i].entries);
      assert records[1..][i] == records[i + 1];
    }
  }

  /** A list of dict records with something left after cleaning becomes one
      INSERT over the first kept record's columns, with one tuple per kept
      record. */
  lemma MultipleInsertStatement(st: State, table: Value, records: seq<Value>)
    requires AllDicts(records) && Kept(records) != []
    ensures MultipleInsert(st, table, VList(records)) ==
      LiftDb(ExecutedMany(st, Render(Insert(Str(table), Keys(Kept(records)[0]))), Tuples(Kept(records))))
  {
    assert records != [] && Truthy(VList(records));
    assert Iterate(VList(records)) == Ok(records);
    CleanRecordsFromKept([], records);
    assert [] + Kept(records) == Kept(records);
    assert CleanRecordsFrom([], records) == Ok(Kept(records));
  }

  /** With an acceptable statement, the kept records are appended as rows. */
  lemma MultipleInsertRows(st: State, t: string, records: seq<Value>)
    requires AllDicts(records) && Kept(records) != []
    requires var kept := Kept(records);
      Acceptable(st.tables, t, Keys(kept[0]), Tuples(kept))
    ensures var kept := Kept(records);
      var tb := st.tables[t];
      var cols := Keys(kept[0]);
      MultipleInsert(st, VStr(t), VList(records)) ==
        Ok(State(st.tables[t := InsertAll(tb, cols, Tuples(kept))],
                 if tb.key in cols then st.lastInsertId else tb.nextId,
                 |kept|, []))
  {
    var kept := Kept(records);
    var cols := Keys(kept[0]);
    var text := Render(Insert(t, cols));
    var args := Tuples(kept);
    MultipleInsertStatement(st, VStr(t), records);
    assert Str(VStr(t)) == t;
    InsertAccepted(st, t, cols, args);
    var tb := st.tables[t];
    var after := State(st.tables[t := InsertAll(tb, cols, args)],
                       if tb.key in cols then st.lastInsertId else tb.nextId, |args|, []);
    assert ExecutedMany(st, text, args) == Ok(after);
    assert LiftDb(ExecutedMany(st, text, args)) == Ok(after);
  }

  /** The cells of the rows a multi-row insert of `kept` adds, whatever
      result carries that new state. */
  lemma KeptCells(st: State, t: string, kept: seq<Dict>, r: Result<State, Failure>, lastId: nat, i: nat, j: nat)
    requires kept != [] && Acceptable(st.tables, t, Keys(kept[0]), Tuples(kept))
    requires r == Ok(State(st.tables[t := InsertAll(st.tables[t], Keys(kept[0]), Tuples(kept))], lastId, |kept|, []))
    requires i < |kept| && j < |kept[0]|
    ensures r.Ok?
    ensures var rows := r.value.tables[t].rows;
      && |rows| == |st.tables[t].rows| + |kept|
      && kept[0][j].key in rows[|st.tables[t].rows| + i]
      && rows[|st.tables[t].rows| + i][kept[0][j].key] == Stored(kept[i][j].value)
  {
    var cols := Keys(kept[0]);
    var args := Tuples(kept);
    assert |args[i]| == |cols|;
    InsertAllCells(st.tables[t], cols, args, i, j);
    assert args[i] == Values(kept[i]);
  }

  /** The column list comes from the first kept record only, and each tuple
      holds its own record's values in that record's order: the `j`-th value
      of the `i`-th kept record lands in the first kept record's `j`-th column. */
  lemma MultipleInsertCells(st: State, t: string, records: seq<Value>, i: nat, j: nat)
    requires AllDicts(records) && Kept(records) != []
    requires var kept := Kept(records);
      Acceptable(st.tables, t, Keys(kept[0]), Tuples(kept))
    requires i < |Kept(records)| && j < |Kept(records)[0]|
    ensures var r := MultipleInsert(st, VStr(t), VList(records));
      var kept := Kept(records);
      var old_rows := st.tables[t].rows;
      && r.Ok? && t in r.value.tables
      && var rows := r.value.tables[t].rows;
      && |rows| == |old_rows| + |kept|
      && kept[0][j].key in rows[|old_rows| + i]
      && rows[|old_rows| + i][kept[0][j].key] == Stored(kept[i][j].value)
  {
    var kept := Kept(records);
    var tb := st.tables[t];
    MultipleInsertRows(st, t, records);
    KeptCells(st, t, kept, MultipleInsert(st, VStr(t), VList(records)),
              if tb.key in Keys(kept[0]) then st.lastInsertId else tb.nextId, i, j);
  }

  /** So when the second record lists its keys in the other order, its values
      land in each other's columns. */
  lemma MisalignedRecords()
    ensures var tb := Table(["id", "a", "b"], "id", [], 1);
      var records := [VDict([Entry("a", VInt(1)), Entry("b", VInt(2))]),
                      VDict([Entry("b", VInt(3)), Entry("a", VInt(4))])];
      var st := State(map["t" := tb], 0, -1, []);
      var r := MultipleInsert(st, VStr("t"), VList(records));
      && r.Ok? && "t" in r.value.tables
      && var rows := r.value.tables["t"].rows;
      && |rows| == 2 && "a" in rows[1] && "b" in rows[1]
      && rows[1]["a"] == VInt(3) && rows[1]["b"] == VInt(4)
  {
    var r1 := [Entry("a", VInt(1)), Entry("b", VInt(2))];
    var r2 := [Entry("b", VInt(3)), Entry("a", VInt(4))];
    var records := [VDict(r1), VDict(r2)];
    var tb := Table(["id", "a", "b"], "id", [], 1);
    var st := State(map["t" := tb], 0, -1, []);
    KeptTwo(r1, r2);
    TwoRecordsAcceptable(tb, r1, r2);
    MultipleInsertCells(st, "t", records, 1, 0);
    MultipleInsertCells(st, "t", records, 1, 1);
  }

  lemma TwoRecordsAcceptable(tb: Table, r1: Dict, r2: Dict)
    requires tb.columns == ["id", "a", "b"]
    requires r1 == [Entry("a", VInt(1)), Entry("b", VInt(2))]
    requires r2 == [Entry("b", VInt(3)), Entry("a", VInt(4))]
    ensures Keys(r1) == ["a", "b"]
    ensures Acceptable(map["t" := tb], "t", Keys(r1), Tuples([r1, r2]))
  {
    assert Keys(r1) == ["a", "b"];
    assert IsIdent("a") && IsIdent("b") && IsIdent("t") by {
      assert !IsDigit("a"[0]) && !IsDigit("b"[0]) && !IsDigit("t"[0]);
    }
  }

  /** A `records` item whose value is a one-element list: pymysql sends
      `('peanuts')`, and the server stores the text inside. */
  lemma SingletonListStored()
    ensures var tb := Table(["id", "substance"], "id", [], 1);
      var st := State(map["allergies" := tb], 0, -1, []);
      var r := MultipleInsert(st, VStr("allergies"), VList([VDict([Entry("substance", VList([VStr("peanuts")]))])]));
      && r.Ok? && "allergies" in r.value.tables
      && r.value.tables["allergies"].rows == [map["id" := VInt(1), "substance" := VStr("peanuts")]]
  {
    var tb := Table(["id", "substance"], "id", [], 1);
    var st := State(map["allergies" := tb], 0, -1, []);
    var r1 := [Entry("substance", VList([VStr("peanuts")]))];
    var args := [[VList([VStr("peanuts")])]];
    SingletonAcceptable(st, r1, args);
    MultipleInsertRows(st, "allergies", [VDict(r1)]);
    SingletonRow(tb, args);
  }

  lemma SingletonAcceptable(st: State, r1: Dict, args: seq<seq<Value>>)
    requires st.tables == map["allergies" := Table(["id", "substance"], "id", [], 1)]
    requires r1 == [Entry("substance", VList([VStr("peanuts")]))] && args == [[VList([VStr("peanuts")])]]
    ensures AllDicts([VDict(r1)]) && Kept([VDict(r1)]) == [r1]
    ensures Keys(r1) == ["substance"] && Tuples([r1]) == args
    ensures Acceptable(st.tables, "allergies", Keys(r1), Tuples([r1]))
  {
    assert Clean(r1) == r1;
    assert [VDict(r1)][1..] == [];
    assert Keys(r1) == ["substance"];
    assert Values(r1) == args[0];
    assert IsIdent("allergies") && IsIdent("substance") by {
      assert !IsDigit("allergies"[0]) && !IsDigit("substance"[0]);
    }
  }

  lemma SingletonRow(tb: Table, args: seq<seq<Value>>)
    requires tb == Table(["id", "substance"], "id", [], 1) && args == [[VList([VStr("peanuts")])]]
    ensures InsertAll(tb, ["substance"], args).rows == [map["id" := VInt(1), "substance" := VStr("peanuts")]]
  {
    assert args[1..] == [];
    assert IndexOf(["substance"], "substance") == 0;
    assert "substance" != "id";
    assert NewRow(tb, ["substance"], args[0]) == map["id" := VInt(1), "substance" := VStr("peanuts")];
    assert InsertAll(tb, ["substance"], args) == InsertAll(InsertOne(tb, ["substance"], args[0]), ["substance"], []);
  }

  lemma KeptTwo(r1: Dict, r2: Dict)
    requires r1 != [] && r2 != [] && Clean(r1) == r1 && Clean(r2) == r2
    ensures Kept([VDict(r1), VDict(r2)]) == [r1, r2]
  {
    var records := [VDict(r1), VDict(r2)];
    assert records[1..] == [VDict(r2)];
    assert [VDict(r2)][1..] == [];
    assert Kept([VDict(r2)]) == [r2] + Kept([]);
    assert Kept(records) == [r1] + Kept([VDict(r2)]);
  }

  /** Kept records of different lengths make the whole `executemany` fail
      before anything is sent. */
  lemma RaggedRecordsFail(st: State, t: string, records: seq<Value>, k: nat)
    requires AllDicts(records) && k < |Kept(records)| && |Kept(records)[k]| != |Kept(records)[0]|
    requires WellFormed(Insert(t, Keys(Kept(records)[0])))
    ensures MultipleInsert(st, VStr(t), VList(records)).Err?
    ensures MultipleInsert(st, VStr(t), VList(records)).error.Db?
    ensures MultipleInsert(st, VStr(t), VList(records)).error.db.FormatError?
  {
    var kept := Kept(records);
    MultipleInsertStatement(st, VStr(t), records);
    InsertBadTuple(st, t, Keys(kept[0]), Tuples(kept), k);
  }

  // ---------------------------------------- insert_data_from_mapped_json

  /** A line of `inserted_records`. */
  datatype LogEntry =
    | Single(table: Value, id: Value)
    | Multiple(table: Value, count: int)

  function EntryValue(e: LogEntry): Value {
    match e
    case Single(t, id) => VDict([Entry("table", t), Entry("id", id), Entry("type", VStr("single"))])
    case Multiple(t, n) => VDict([Entry("table", t), Entry("count", VInt(n)), Entry("type", VStr("multiple"))])
  }

  datatype Progress = Progress(state: State, log: seq<LogEntry>)

  /** inserting_JSON_to_DB.py:80-81 and the iteration at line 83. */
  function Items(data: Value): Result<seq<Value>, Failure> {
    if data.VDict? then Ok([data]) else LiftPy(Iterate(data))
  }

  /** `cursor.fetchone()['LAST_INSERT_ID()']` (line 100). */
  function LastId(row: Option<Row>): Result<Value, Failure> {
    match row
    case None => Err(Raised(TypeError("'NoneType' object is not subscriptable")))
    case Some(r) =>
      if "LAST_INSERT_ID()" in r then Ok(r["LAST_INSERT_ID()"])
      else Err(Raised(KeyError(StrRepr("LAST_INSERT_ID()"))))
  }

  /** One pass of the loop body at inserting_JSON_to_DB.py:83-114. */
  function ProcessItem(p: Progress, item: Value): Result<Progress, Failure> {
    if !item.VDict? then Ok(p)
    else
      var table := GetOr(item.entries, "table", VNone);
      if !Truthy(table) then Ok(p)
      else match Lookup(item.entries, "columns")
        case Some(columns) =>
          var s1 :- SingleInsert(p.state, table, columns);
          var s2 :- LiftDb(Executed(s1, LastInsertIdText, []));
          var (row, s3) := Fetched(s2);
          var id :- LastId(row);
          Ok(Progress(s3, p.log + [Single(table, id)]))
        case None =>
          match Lookup(item.entries, "records")
          case None => Ok(p)
          case Some(records) =>
            if !Truthy(records) then Ok(p)
            else
              var s1 :- MultipleInsert(p.state, table, records);
              Ok(Progress(s1, p.log + [Multiple(table, s1.rowcount)]))
  }

  function RunItems(p: Progress, items: seq<Value>): Result<Progress, Failure>
    decreases |items|
  {
    if items == [] then Ok(p)
    else
      var next :- ProcessItem(p, items[0]);
      RunItems(next, items[1..])
  }

  /** The lookup of line 120, by the literal column name `id`. */
  function VerifyText(table: Value, id: Value): string {
    "SELECT * FROM " + (Str(table) + " WHERE id = " + Str(id))
  }

  /** The check of one `inserted_records` line (lines 119-126). */
  function VerifyEntry(st: State, e: LogEntry): Result<State, Failure> {
    match e
    case Multiple(_, _) => Ok(st)
    case Single(table, id) => Checked(Executed(st, VerifyText(table, id), []), table, id)
  }

  /** What follows the lookup `r`: `fetchone()` and the test of line 122. */
  function Checked(r: Result<State, DbError>, table: Value, id: Value): Result<State, Failure> {
    var s1 :- LiftDb(r);
    var (row, s2) := Fetched(s1);
    if row.None? || |row.value| == 0 then
      Err(VerificationFailed("Verification failed: Could not find inserted record in " + Str(table) + " with id " + Str(id)))
    else Ok(s2)
  }

  function VerifyAll(st: State, log: seq<LogEntry>): Result<State, Failure>
    decreases |log|
  {
    if log == [] then Ok(st)
    else
      var next :- VerifyEntry(st, log[0]);
      VerifyAll(next, log[1..])
  }

  function Summary(log: seq<LogEntry>): Value {
    VDict([Entry("status", VStr("success")),
           Entry("inserted_records", VList(seq(|log|, i requires 0 <= i < |log| => EntryValue(log[i]))))])
  }

  datatype Committed = Committed(summary: Value, tables: Tables)

  /** `insert_data_from_mapped_json` on the loaded document `data`, against a
      database whose committed tables are `tables`: the value returned and
      the tables committed, or the exception raised. */
  function Ingest(data: Value, tables: Tables): Result<Committed, Failure> {
    var items :- Items(data);
    var p :- RunItems(Progress(State(tables, 0, -1, []), []), items);
    var s :- VerifyAll(p.state, p.log);
    Ok(Committed(Summary(p.log), s.tables))
  }

  method ProcessOne(cursor: Cursor, item: Value, log: seq<LogEntry>) returns (newLog: seq<LogEntry>, err: Option<Failure>)
    requires cursor.isOpen && cursor.conn.isOpen
    modifies cursor`rowcount, cursor`rows, cursor.conn`tables, cursor.conn`lastInsertId
    ensures match ProcessItem(Progress(old(cursor.Current()), log), item)
      case Ok(p) => err == None && cursor.Current() == p.state && newLog == p.log
      case Err(e) => err == Some(e)  // the cursor is left as the failing call left it: the caller rolls back at once
  {
    newLog := log;
    if !item.VDict? {
      return newLog, None;
    }
    var table := GetOr(item.entries, "table", VNone);
    if !Truthy(table) {
      return newLog, None;
    }
    if HasKey(item.entries, "columns") {
      err := InsertSingleRecord(cursor, table, Lookup(item.entries, "columns").value);
      if err.Some? {
        return;
      }
      var e := cursor.Execute(LastInsertIdText, []);
      if e.Some? {
        return newLog, Some(Db(e.value));
      }
      var row := cursor.FetchOne();
      var id := LastId(row);
      if id.Err? {
        return newLog, Some(id.error);
      }
      newLog := log + [Single(table, id.value)];
    } else if HasKey(item.entries, "records") {
      var records := Lookup(item.entries, "records").value;
      if !Truthy(records) {
        return newLog, None;
      }
      err := InsertMultipleRecords(cursor, table, records);
      if err.Some? {
        return;
      }
      newLog := log + [Multiple(table, cursor.rowcount)];
    }
    return newLog, None;
  }

  method VerifyOne(cursor: Cursor, e: LogEntry) returns (err: Option<Failure>)
    requires cursor.isOpen && cursor.conn.isOpen
    modifies cursor`rowcount, cursor`rows, cursor.conn`tables, cursor.conn`lastInsertId
    ensures match VerifyEntry(old(cursor.Current()), e)
      case Ok(s) => err == None && cursor.Current() == s
      case Err(f) => err == Some(f)  // the cursor is left as the failing call left it: the caller rolls back at once
  {
    if e.Single? {
      var d := cursor.Execute(VerifyText(e.table, e.id), []);
      if d.Some? {
        return Some(Db(d.value));
      }
      var result := cursor.FetchOne();
      if result.None? || |result.value| == 0 {
        return Some(VerificationFailed("Verification failed: Could not find inserted record in " + Str(e.table) + " with id " + Str(e.id)));
      }
    }
    return None;
  }

  /** `insert_data_from_mapped_json` (lines 65-146) on the loaded document.
      It commits on success and rolls back on any exception, so the database
      holds either everything the document inserted or exactly the rows it
      held before (the auto-increment counters may have moved on); the
      cursor and the connection are closed on every path. */
  method InsertDataFromMappedJson(db: Database, data: Value)
    returns (r: Result<Value, Failure>, ghost conn: Connection, ghost cursor: Cursor)
    modifies db
    ensures fresh(conn) && fresh(cursor) && !conn.isOpen && !cursor.isOpen
    ensures match Ingest(data, old(db.tables))
      case Ok(c) => r == Ok(c.summary) && db.tables == c.tables
      case Err(f) => r == Err(f) && SameRows(old(db.tables), db.tables)
  {
    var c := new Connection(db);
    var cur := new Cursor(c);
    conn, cursor := c, cur;
    c.Begin();
    var items := Items(data);
    if items.Err? {
      RolledBackRestores(db.tables, c.tables);
      c.Rollback();
      cur.Close();
      RolledBackSelf(db.tables);
      c.Close();
      return Err(items.error), conn, cursor;
    }
    ghost var start := Progress(cur.Current(), []);
    assert start.state == State(old(db.tables), 0, -1, []);
    var log: seq<LogEntry> := [];
    for i := 0 to |items.value|
      invariant cur.isOpen && c.isOpen && db.tables == old(db.tables)
      invariant RunItems(Progress(cur.Current(), log), items.value[i..]) == RunItems(start, items.value)
    {
      assert items.value[i..][1..] == items.value[i + 1..];
      var err;
      log, err := ProcessOne(cur, items.value[i], log);
      if err.Some? {
        RolledBackRestores(db.tables, c.tables);
        c.Rollback();
        cur.Close();
        RolledBackSelf(db.tables);
        c.Close();
        return Err(err.value), conn, cursor;
      }
    }
    ghost var ran := cur.Current();
    for j := 0 to |log|
      invariant cur.isOpen && c.isOpen && db.tables == old(db.tables)
      invariant VerifyAll(cur.Current(), log[j..]) == VerifyAll(ran, log)
    {
      assert log[j..][1..] == log[j + 1..];
      var err := VerifyOne(cur, log[j]);
      if err.Some? {
        RolledBackRestores(db.tables, c.tables);
        c.Rollback();
        cur.Close();
        RolledBackSelf(db.tables);
        c.Close();
        return Err(err.value), conn, cursor;
      }
    }
    c.Commit();
    r := Ok(Summary(log));
    cur.Close();
    RolledBackSelf(db.tables);
    c.Close();
  }

  // ---------------------------------------------- properties of the run

  /** An item the loop inserts and reports: a dict with a truthy `table` and
      either a `columns` key or a non-empty `records` value (lines 86-91, 95, 107-108). */
  predicate Reported(item: Value) {
    && item.VDict? && Truthy(GetOr(item.entries, "table", VNone))
    && (HasKey(item.entries, "columns")
        || (HasKey(item.entries, "records") && Truthy(Lookup(item.entries, "records").value)))
  }

  /** What each log line says about its item: the table, and whether it was a single insert. */
  function Kinds(log: seq<LogEntry>): seq<(Value, bool)>
    decreases |log|
  {
    if log == [] then [] else [(log[0].table, log[0].Single?)] + Kinds(log[1..])
  }

  /** The lines the loop is to write for `items`, in document order. */
  function Expected(items: seq<Value>): seq<(Value, bool)>
    decreases |items|
  {
    if items == [] then []
    else
      (if Reported(items[0]) then [(GetOr(items[0].entries, "table", VNone), HasKey(items[0].entries, "columns"))] else [])
      + Expected(items[1..])
  }

  /** A processed item appends exactly one line, naming its table: a single
      insert (chosen whenever `columns` is present) with `LAST_INSERT_ID()` as
      its id, or a multiple insert with the cursor's `rowcount` as its count.
      Any other item leaves the state and the log as they were. */
  lemma ProcessItemEntry(p: Progress, item: Value)
    requires ProcessItem(p, item).Ok?
    ensures var q := ProcessItem(p, item).value;
      if Reported(item) then
        && |q.log| == |p.log| + 1 && q.log[..|p.log|] == p.log
        && q.log[|p.log|].table == GetOr(item.entries, "table", VNone)
        && (q.log[|p.log|].Single? <==> HasKey(item.entries, "columns"))
        && (q.log[|p.log|].Single? ==> q.log[|p.log|].id == VInt(q.state.lastInsertId))
        && (q.log[|p.log|].Multiple? ==> q.log[|p.log|].count == q.state.rowcount)
      else q == p
  {
    if Reported(item) {
      var q := ProcessItem(p, item).value;
      assert q.log[..|p.log|] == p.log;
    }
  }

  /** So the whole loop writes one line per reported item, in document order,
      after the lines it started with. */
  lemma {:induction false} RunItemsLog(p: Progress, items: seq<Value>)
    requires RunItems(p, items).Ok?
    ensures var q := RunItems(p, items).value;
      |p.log| <= |q.log| && q.log[..|p.log|] == p.log && Kinds(q.log[|p.log|..]) == Expected(items)
    decreases |items|
  {
    if items != [] {
      var next := ProcessItem(p, items[0]).value;
      ProcessItemEntry(p, items[0]);
      RunItemsLog(next, items[1..]);
      var q := RunItems(p, items).value;
      var added := next.log[|p.log|..];
      var rest := q.log[|next.log|..];
      assert q.log[|p.log|..] == added + rest;
      assert q.log[..|p.log|] == next.log[..|next.log|][..|p.log|];
      if Reported(items[0]) {
        assert (added + rest)[1..] == rest;
      } else {
        assert added + rest == rest;
      }
    }
  }

  lemma GrowsReflexive(a: Tables)
    ensures Grows(a, a)
  {
    forall t | t in a
      ensures a[t].rows[..|a[t].rows|] == a[t].rows
    {
    }
  }

  /** Processing an item only inserts. */
  lemma ProcessItemGrows(p: Progress, item: Value)
    requires ProcessItem(p, item).Ok?
    ensures Grows(p.state.tables, ProcessItem(p, item).value.state.tables)
  {
    var q := ProcessItem(p, item).value;
    if q.state.tables == p.state.tables {
      GrowsReflexive(q.state.tables);
    } else if HasKey(item.entries, "columns") {
      var table := GetOr(item.entries, "table", VNone);
      var entries := ItemsMethod(Lookup(item.entries, "columns").value).value;
      var kept := Clean(entries);
      ExecuteGrows(p.state, Render(Insert(Str(table), Keys(kept))), Values(kept));
    } else {
      var table := GetOr(item.entries, "table", VNone);
      var records := Lookup(item.entries, "records").value;
      var cleaned := CleanRecordsFrom([], Iterate(records).value).value;
      ExecuteManyGrows(p.state, Render(Insert(Str(table), Keys(cleaned[0]))), Tuples(cleaned));
    }
  }

  lemma {:induction false} RunItemsGrows(p: Progress, items: seq<Value>)
    requires RunItems(p, items).Ok?
    ensures Grows(p.state.tables, RunItems(p, items).value.state.tables)
    decreases |items|
  {
    if items == [] {
      GrowsReflexive(p.state.tables);
    } else {
      var next := ProcessItem(p, items[0]).value;
      ProcessItemGrows(p, items[0]);
      RunItemsGrows(next, items[1..]);
      GrowsTransitive(p.state.tables, next.state.tables, RunItems(p, items).value.state.tables);
    }
  }

  /** Verification only reads. */
  lemma VerifyEntryReads(st: State, e: LogEntry)
    requires VerifyEntry(st, e).Ok?
    ensures VerifyEntry(st, e).value.tables == st.tables
  {
    if e.Single? {
      var text := VerifyText(e.table, e.id);
      SelectTextIsLookup(Str(e.table) + " WHERE id = " + Str(e.id));
      var r := Executed(st, text, []);
      if r.Ok? {
        LookupReads(st, text);
      }
      CheckedReads(st, r, e.table, e.id);
    }
  }

  lemma CheckedReads(st: State, r: Result<State, DbError>, table: Value, id: Value)
    requires r.Ok? ==> r.value.tables == st.tables
    requires Checked(r, table, id).Ok?
    ensures Checked(r, table, id).value.tables == st.tables
  {
  }

  lemma {:induction false} VerifyAllReads(st: State, log: seq<LogEntry>)
    requires VerifyAll(st, log).Ok?
    ensures VerifyAll(st, log).value.tables == st.tables
    decreases |log|
  {
    if log != [] {
      VerifyEntryReads(st, log[0]);
      VerifyAllReads(VerifyEntry(st, log[0]).value, log[1..]);
    }
  }

  /** A successful run commits the pre-image plus its inserts, and reports
      status "success" with one line per reported item of the document. */
  lemma IngestCommitsInserts(data: Value, tables: Tables)
    requires Ingest(data, tables).Ok?
    ensures Grows(tables, Ingest(data, tables).value.tables)
    ensures Lookup(Ingest(data, tables).value.summary.entries, "status") == Some(VStr("success"))
    ensures var p := RunItems(Progress(State(tables, 0, -1, []), []), Items(data).value).value;
      Kinds(p.log) == Expected(Items(data).value)
  {
    var start := Progress(State(tables, 0, -1, []), []);
    var items := Items(data).value;
    var p := RunItems(start, items).value;
    RunItemsGrows(start, items);
    RunItemsLog(start, items);
    assert p.log[0..] == p.log;
    VerifyAllReads(p.state, p.log);
  }

  /** The server reads the lookup text of a `single` line for table `t` and
      id `k` as the lookup of `t` by `id = k`. */
  lemma SelectVerified(t: string, k: nat)
    requires IsIdent(t)
    ensures Parse(VerifyText(VStr(t), VInt(k))) == Some(SelectWhere(t, "id", k))
  {
    var n := NatToDec(k);
    assert Str(VInt(k)) == n;
    var tail := " WHERE " + ("id" + (" = " + n));
    assert tail == " WHERE id = " + n;
    assert VerifyText(VStr(t), VInt(k)) == "SELECT * FROM " + (t + tail);
    assert IsIdent("id") by {
      assert "id"[0] == 'i';
      assert !IsDigit("id"[0]);
    }
    ParseSelectText(t + tail);
    ParseSelectOf(t, "id", k);
  }

  /** For a `single` line on a table with an `id` column, verification passes
      exactly when some row of the table has that id. */
  lemma VerifySingleIff(st: State, t: string, k: nat)
    requires IsIdent(t) && t in st.tables && "id" in st.tables[t].columns
    ensures VerifyEntry(st, Single(VStr(t), VInt(k))).Ok? <==>
      exists row :: row in st.tables[t].rows && "id" in row && row["id"] == VInt(k)
  {
    SelectVerified(t, k);
    var text := VerifyText(VStr(t), VInt(k));
    LookupSelects(st, text, t, "id", k);
    var found := MatchingRows(st.tables[t].rows, "id", k);
    CheckedFound(st, Executed(st, text, []), found, VStr(t), VInt(k));
    if found != [] {
      assert found[0] in found;
    }
  }

  /** A `single` line that passed verification names a row the tables hold:
      its table exists and some row of it carries the line's id. */
  lemma VerifiedEntryFound(st: State, t: string, k: nat)
    requires IsIdent(t) && VerifyEntry(st, Single(VStr(t), VInt(k))).Ok?
    ensures t in st.tables && exists row :: row in st.tables[t].rows && "id" in row && row["id"] == VInt(k)
  {
    SelectVerified(t, k);
    LookupSelects(st, VerifyText(VStr(t), VInt(k)), t, "id", k);
    VerifySingleIff(st, t, k);
  }

  /** The same for every `single` line of a log the verification loop passed. */
  lemma {:induction false} VerifiedRowsFound(st: State, log: seq<LogEntry>, i: nat, t: string, k: nat)
    requires VerifyAll(st, log).Ok? && i < |log| && log[i] == Single(VStr(t), VInt(k)) && IsIdent(t)
    ensures t in st.tables && exists row :: row in st.tables[t].rows && "id" in row && row["id"] == VInt(k)
    decreases i
  {
    if i == 0 {
      VerifiedEntryFound(st, t, k);
    } else {
      var next := VerifyEntry(st, log[0]).value;
      VerifyEntryReads(st, log[0]);
      VerifiedRowsFound(next, log[1..], i - 1, t, k);
    }
  }

  /** A successful run commits the row of every `single` line it logged. */
  lemma CommittedRowsFound(data: Value, tables: Tables, i: nat, t: string, k: nat)
    requires Ingest(data, tables).Ok?
    requires var p := RunItems(Progress(State(tables, 0, -1, []), []), Items(data).value).value;
      i < |p.log| && p.log[i] == Single(VStr(t), VInt(k)) && IsIdent(t)
    ensures var committed := Ingest(data, tables).value.tables;
      t in committed && exists row :: row in committed[t].rows && "id" in row && row["id"] == VInt(k)
  {
    var p := RunItems(Progress(State(tables, 0, -1, []), []), Items(data).value).value;
    VerifyAllReads(p.state, p.log);
    VerifiedRowsFound(p.state, p.log, i, t, k);
  }

  /** A lookup whose result set holds only rows with an `id` passes the check
      exactly when that set is not empty. */
  lemma CheckedFound(st: State, r: Result<State, DbError>, found: seq<Row>, table: Value, id: Value)
    requires r == Ok(st.(rowcount := |found|, rows := found))
    requires forall x :: x in found ==> "id" in x
    ensures Checked(r, table, id).Ok? <==> found != []
  {
    if found != [] {
      assert found[0] in found;
      assert |found[0]| != 0 by { assert found[0] != map[]; }
    }
  }

  /** On a table without an `id` column (its key named otherwise), the lookup
      by the literal column `id` fails with MySQL error 1054. */
  lemma VerifyWithoutIdColumn(st: State, t: string, k: nat)
    requires IsIdent(t) && t in st.tables && "id" !in st.tables[t].columns
    ensures VerifyEntry(st, Single(VStr(t), VInt(k))) == Err(Db(SqlError(1054, UnknownColumn("id"))))
  {
    SelectVerified(t, k);
    LookupSelects(st, VerifyText(VStr(t), VInt(k)), t, "id", k);
  }

  // ------------------------------------- a patient row under the schema

  /** The `patients` table of the schema (mapping_collectedinfo_to_schema.py:25),
      keyed by `patient_id` and empty, next key 1. */
  function PatientsOnly(): Tables {
    map["patients" := Table(["patient_id", "full_name"], "patient_id", [], 1)]
  }

  function PatientItem(name: string): Value {
    VDict([Entry("table", VStr("patients")), Entry("columns", VDict([Entry("full_name", VStr(name))]))])
  }

  /** A `patients` item whose `full_name` column is `v`. */
  function PatientItemWith(v: Value): Value {
    VDict([Entry("table", VStr("patients")), Entry("columns", VDict([Entry("full_name", v)]))])
  }

  /** The document of one such item gets as far as the INSERT of `v`. */
  lemma PatientItemWithInserts(v: Value)
    requires v != VNone
    ensures var st := State(PatientsOnly(), 0, -1, []);
      Ingest(PatientItemWith(v), PatientsOnly()) ==
        match InsertStatement(st, "patients", ["full_name"], [[v]])
        case Err(e) => Err(Db(e))
        case Ok(_) => Ingest(PatientItemWith(v), PatientsOnly())
  {
    var st := State(PatientsOnly(), 0, -1, []);
    var d := [Entry("full_name", v)];
    assert Clean(d) == d;
    assert Keys(d) == ["full_name"] && Values(d) == [v];
    SingleInsertStatement(st, "patients", d);
    NamesAreIdents();
    ReadBack(Insert("patients", ["full_name"]));
    var item := PatientItemWith(v);
    assert GetOr(item.entries, "table", VNone) == VStr("patients");
    assert Lookup(item.entries, "columns") == Some(VDict(d));
    RunOne(Progress(st, []), item);
    assert Items(item) == Ok([item]);
  }

  /** A column value that is itself a dict makes pymysql raise, so the
      document is rolled back. */
  lemma NestedDictRolledBack(inner: Dict)
    ensures Ingest(PatientItemWith(VDict(inner)), PatientsOnly()) == Err(Db(FormatError("dict can not be used as parameter")))
  {
    var v := VDict(inner);
    var st := State(PatientsOnly(), 0, -1, []);
    assert HoldsDict([v][0]);
    assert FormatCheck(1, [v]) == Some(FormatError("dict can not be used as parameter"));
    assert FirstFormatError(1, [[v]]) == FormatCheck(1, [v]);
    assert InsertStatement(st, "patients", ["full_name"], [[v]]) == Err(FormatError("dict can not be used as parameter"));
    PatientItemWithInserts(v);
  }

  /** A patients item whose column value is storable goes in, the value
      stored as the literal inside its parentheses, and is logged with id 1. */
  lemma PatientValueInserted(v: Value)
    requires Storable(v) && v != VNone
    ensures var r := RunItems(Progress(State(PatientsOnly(), 0, -1, []), []), [PatientItemWith(v)]);
      && r.Ok? && r.value.log == [Single(VStr("patients"), VInt(1))]
      && "patients" in r.value.state.tables
      && r.value.state.tables["patients"].columns == ["patient_id", "full_name"]
      && r.value.state.tables["patients"].rows == [map["patient_id" := VInt(1), "full_name" := Stored(v)]]
  {
    var st := State(PatientsOnly(), 0, -1, []);
    var d := [Entry("full_name", v)];
    var item := PatientItemWith(v);
    PatientValueAcceptable(st, v);
    SingleInsertRow(st, "patients", d);
    var s1 := KeyedInsert(st, "patients", Keys(Clean(d)), Values(Clean(d)));
    PatientValueRow(st, v, s1);
    assert GetOr(item.entries, "table", VNone) == VStr("patients");
    assert Lookup(item.entries, "columns") == Some(VDict(d));
    ProcessSingleOf(Progress(st, []), item, VDict(d), s1);
    RunOne(Progress(st, []), item);
  }

  lemma PatientValueAcceptable(st: State, v: Value)
    requires st.tables == PatientsOnly() && Storable(v) && v != VNone
    ensures var d := [Entry("full_name", v)];
      Clean(d) == d && Keys(d) == ["full_name"] && Values(d) == [v] && SingleAcceptable(st, "patients", d)
  {
    var d := [Entry("full_name", v)];
    assert Clean(d) == d;
    assert Keys(d) == ["full_name"] && Values(d) == [v];
    NamesAreIdents();
    assert "full_name" != "patient_id" by { assert "full_name"[0] != "patient_id"[0]; }
  }

  lemma PatientValueRow(st: State, v: Value, s1: State)
    requires st == State(PatientsOnly(), 0, -1, []) && Storable(v) && v != VNone
    requires s1 == KeyedInsert(st, "patients", ["full_name"], [v])
    ensures "patients" in s1.tables && s1.lastInsertId == 1
    ensures s1.tables["patients"].columns == ["patient_id", "full_name"]
    ensures s1.tables["patients"].rows == [map["patient_id" := VInt(1), "full_name" := Stored(v)]]
  {
    var tb := PatientsOnly()["patients"];
    var row := NewRow(tb, ["full_name"], [v]);
    assert IndexOf(["full_name"], "full_name") == 0;
    assert "full_name" != "patient_id" by { assert "full_name"[0] != "patient_id"[0]; }
    assert row == map["patient_id" := VInt(1), "full_name" := Stored(v)];
  }

  /** Such a document is rolled back like any patient row: the check looks the
      row up by `id`, which the table lacks. */
  lemma PatientValueRolledBack(v: Value)
    requires Storable(v) && v != VNone
    ensures Ingest(PatientItemWith(v), PatientsOnly()) == Err(Db(SqlError(1054, UnknownColumn("id"))))
  {
    PatientValueInserted(v);
    var p := RunItems(Progress(State(PatientsOnly(), 0, -1, []), []), [PatientItemWith(v)]).value;
    assert "id" !in p.state.tables["patients"].columns by {
      assert "id" != "patient_id" && "id" != "full_name";
    }
    NamesAreIdents();
    VerifyWithoutIdColumn(p.state, "patients", 1);
    VerifyFirstFails(p.state, p.log);
    assert Items(PatientItemWith(v)) == Ok([PatientItemWith(v)]);
    IngestFailsInCheck(PatientItemWith(v), PatientsOnly(), p);
  }

  /** A column value that is a list reaches the server as a parenthesised
      tuple.  A dict inside makes pymysql raise, an empty list anywhere is a
      syntax error, and a row value is refused; a chain of one-element lists
      is stored as its literal, and the run then fails at the check by `id`.
      The document is rolled back in every case. */
  lemma NestedListRolledBack(v: Value)
    requires v.VList?
    ensures Ingest(PatientItemWith(v), PatientsOnly()) ==
      Err(Db(if HoldsDict(v) then FormatError("dict can not be used as parameter")
             else if HoldsEmptyList(v) then SqlError(1064, "You have an error in your SQL syntax")
             else if RowValue(v) then SqlError(1241, "Operand should contain 1 column(s)")
             else SqlError(1054, UnknownColumn("id"))))
  {
    StorableIff(v);
    if Storable(v) {
      PatientValueRolledBack(v);
    } else {
      PatientItemWithInserts(v);
      PatientListRefused(v);
    }
  }

  lemma PatientListRefused(v: Value)
    requires !HoldsDict(v) ==> HoldsEmptyList(v) || RowValue(v)
    ensures InsertStatement(State(PatientsOnly(), 0, -1, []), "patients", ["full_name"], [[v]]) ==
      Err(if HoldsDict(v) then FormatError("dict can not be used as parameter")
          else if HoldsEmptyList(v) then SqlError(1064, "You have an error in your SQL syntax")
          else SqlError(1241, "Operand should contain 1 column(s)"))
  {
    var st := State(PatientsOnly(), 0, -1, []);
    assert [[v]][0][0] == v;
    if HoldsDict(v) {
      assert FormatCheck(1, [v]) == Some(FormatError("dict can not be used as parameter"));
      assert FirstFormatError(1, [[v]]) == FormatCheck(1, [v]);
    } else {
      assert FirstFormatError(1, [[v]]).None?;
      if !HoldsEmptyList(v) {
        NamesAreIdents();
        assert "full_name" in PatientsOnly()["patients"].columns;
        assert InsertCheck(st.tables, "patients", ["full_name"]).None?;
      }
    }
  }

  lemma NamesAreIdents()
    ensures IsIdent("patients") && IsIdent("full_name")
  {
    assert !IsDigit("patients"[0]);
    assert !IsDigit("full_name"[0]);
  }

  lemma PatientRowAcceptable(st: State, name: string)
    requires st.tables == PatientsOnly()
    ensures SingleAcceptable(st, "patients", [Entry("full_name", VStr(name))])
  {
    var d := [Entry("full_name", VStr(name))];
    assert Clean(d) == d;
    assert Keys(d) == ["full_name"];
    NamesAreIdents();
    assert "full_name" != "patient_id" by { assert "full_name"[0] != "patient_id"[0]; }
  }

  /** The `columns` branch of the loop body, once the insert has succeeded. */
  lemma ProcessSingleOf(p: Progress, item: Value, columns: Value, s1: State)
    requires item.VDict? && Truthy(GetOr(item.entries, "table", VNone))
    requires Lookup(item.entries, "columns") == Some(columns)
    requires SingleInsert(p.state, GetOr(item.entries, "table", VNone), columns) == Ok(s1)
    ensures ProcessItem(p, item).Ok?
    ensures ProcessItem(p, item).value.state == s1.(rowcount := 1, rows := [])
    ensures ProcessItem(p, item).value.log == p.log + [Single(GetOr(item.entries, "table", VNone), VInt(s1.lastInsertId))]
  {
    LastInsertIdRead(s1);
    var row := map["LAST_INSERT_ID()" := VInt(s1.lastInsertId)];
    var s2 := s1.(rowcount := 1, rows := [row]);
    assert [row][1..] == [];
    assert Fetched(s2) == (Some(row), s1.(rowcount := 1, rows := []));
    assert LastId(Some(row)) == Ok(VInt(s1.lastInsertId));
  }

  lemma RunOne(p: Progress, item: Value)
    ensures RunItems(p, [item]) == ProcessItem(p, item)
  {
    assert [item][1..] == [];
  }

  /** Inserting one patient logs a `single` line with id 1 and leaves a table
      that still has no `id` column. */
  lemma PatientRowInserted(name: string)
    ensures var r := RunItems(Progress(State(PatientsOnly(), 0, -1, []), []), [PatientItem(name)]);
      && r.Ok? && r.value.log == [Single(VStr("patients"), VInt(1))]
      && "patients" in r.value.state.tables && r.value.state.tables["patients"].columns == ["patient_id", "full_name"]
  {
    var st := State(PatientsOnly(), 0, -1, []);
    var d := [Entry("full_name", VStr(name))];
    var item := PatientItem(name);
    PatientRowAcceptable(st, name);
    SingleInsertRow(st, "patients", d);
    var s1 := KeyedInsert(st, "patients", Keys(Clean(d)), Values(Clean(d)));
    assert GetOr(item.entries, "table", VNone) == VStr("patients");
    assert Lookup(item.entries, "columns") == Some(VDict(d));
    ProcessSingleOf(Progress(st, []), item, VDict(d), s1);
    RunOne(Progress(st, []), item);
  }

  lemma VerifyFirstFails(st: State, log: seq<LogEntry>)
    requires log != [] && VerifyEntry(st, log[0]).Err?
    ensures VerifyAll(st, log) == Err(VerifyEntry(st, log[0]).error)
  {
  }

  /** A run whose items all went in but whose check fails commits nothing
      and raises the check's error. */
  lemma IngestFailsInCheck(data: Value, tables: Tables, p: Progress)
    requires Items(data).Ok?
    requires RunItems(Progress(State(tables, 0, -1, []), []), Items(data).value) == Ok(p)
    requires VerifyAll(p.state, p.log).Err?
    ensures Ingest(data, tables) == Err(VerifyAll(p.state, p.log).error)
  {
  }

  /** Under the schema, where `patients` is keyed by `patient_id`, a document
      that inserts one patient is rolled back: the row goes in, but the check
      of line 120 looks it up by the column `id`, which the table lacks. */
  lemma PatientRowRolledBack(name: string)
    ensures Ingest(PatientItem(name), PatientsOnly()) == Err(Db(SqlError(1054, UnknownColumn("id"))))
  {
    PatientRowInserted(name);
    var p := RunItems(Progress(State(PatientsOnly(), 0, -1, []), []), [PatientItem(name)]).value;
    assert "id" !in p.state.tables["patients"].columns by {
      assert "id" != "patient_id" && "id" != "full_name";
    }
    NamesAreIdents();
    VerifyWithoutIdColumn(p.state, "patients", 1);
    VerifyFirstFails(p.state, p.log);
    assert Items(PatientItem(name)) == Ok([PatientItem(name)]);
    IngestFailsInCheck(PatientItem(name), PatientsOnly(), p);
  }
}
