/** The three SQL statements the insertion script sends, as the text it builds
    with f-strings (inserting_JSON_to_DB.py:26-30, 50-52, 99 and 120), and the
    reading a MySQL server gives that text.  Identifiers are written unquoted,
    so the server reads back only names made of identifier characters. */
module Sql {
  import opened Results
  import opened Text

  datatype Statement =
    | Insert(table: string, columns: seq<string>)
    | LastInsertId
    | SelectWhere(table: string, column: string, key: nat)

  /** The characters MySQL accepts in an unquoted identifier (ASCII part). */
  predicate IsIdentChar(c: char) {
    ('a' <= c <= 'z') || ('A' <= c <= 'Z') || ('0' <= c <= '9') || c == '_' || c == '$'
  }

  /** An unquoted identifier: identifier characters, not all of them digits. */
  predicate IsIdent(s: string) {
    s != [] && (forall i :: 0 <= i < |s| ==> IsIdentChar(s[i])) && !AllDigits(s)
  }

  predicate WellFormed(st: Statement) {
    match st
    case Insert(t, cs) => IsIdent(t) && forall i :: 0 <= i < |cs| ==> IsIdent(cs[i])
    case LastInsertId => true
    case SelectWhere(t, c, _) => IsIdent(t) && IsIdent(c)
  }

  /** `", ".join(["%s"] * n)` */
  function Placeholders(n: nat): string {
    Join(Repeat("%s", n), ", ")
  }

  const LastInsertIdText: string := "SELECT LAST_INSERT_ID()"

  /** The text the script sends for each statement. */
  function Render(st: Statement): string {
    match st
    case Insert(t, cs) => "INSERT INTO " + t + " (" + Join(cs, ", ") + ") VALUES (" + Placeholders(|cs|) + ")"
    case LastInsertId => LastInsertIdText
    case SelectWhere(t, c, k) => "SELECT * FROM " + t + " WHERE " + c + " = " + NatToDec(k)
  }

  // ------------------------------------------------------------ reading

  /** The longest prefix of identifier characters. */
  function TakeIdent(s: string): (r: string)
    ensures |r| <= |s| && s[..|r|] == r
    ensures forall i :: 0 <= i < |r| ==> IsIdentChar(r[i])
    ensures |r| < |s| ==> !IsIdentChar(s[|r|])
  {
    if s != [] && IsIdentChar(s[0]) then [s[0]] + TakeIdent(s[1..]) else ""
  }

  /** A list of identifiers separated by `", "`, and what follows it. */
  function Idents(s: string): (r: (seq<string>, string))
    ensures |r.1| <= |s|
    decreases |s|
  {
    var t := TakeIdent(s);
    if t == "" then ([], s)
    else
      var rem := s[|t|..];
      if StartsWith(rem, ", ") && TakeIdent(rem[2..]) != "" then
        var (ts, r) := Idents(rem[2..]);
        ([t] + ts, r)
      else ([t], rem)
  }

  function ParseSelect(s: string): Option<Statement> {
    var t := TakeIdent(s);
    var r1 := s[|t|..];
    if IsIdent(t) && StartsWith(r1, " WHERE ") then
      var c := TakeIdent(r1[7..]);
      var r2 := r1[7..][|c|..];
      if IsIdent(c) && StartsWith(r2, " = ") && r2[3..] != "" && AllDigits(r2[3..]) then
        Some(SelectWhere(t, c, DecValue(r2[3..])))
      else None
    else None
  }

  function ParseInsert(s: string): Option<Statement> {
    var t := TakeIdent(s);
    var r1 := s[|t|..];
    if IsIdent(t) && StartsWith(r1, " (") then
      var (cs, r2) := Idents(r1[2..]);
      if (forall i :: 0 <= i < |cs| ==> IsIdent(cs[i])) && r2 == ") VALUES (" + Placeholders(|cs|) + ")" then
        Some(Insert(t, cs))
      else None
    else None
  }

  /** The server's reading of a statement text; `None` is a syntax error. */
  function Parse(text: string): Option<Statement> {
    if text == LastInsertIdText then Some(LastInsertId)
    else if StartsWith(text, "SELECT * FROM ") then ParseSelect(text[14..])
    else if StartsWith(text, "INSERT INTO ") then ParseInsert(text[12..])
    else None
  }

  // ------------------------------------------------------------ round trip

  lemma {:induction false} TakeIdentOf(t: string, rest: string)
    requires forall i :: 0 <= i < |t| ==> IsIdentChar(t[i])
    requires rest == [] || !IsIdentChar(rest[0])
    ensures TakeIdent(t + rest) == t
  {
    if t != [] {
      assert (t + rest)[1..] == t[1..] + rest;
      TakeIdentOf(t[1..], rest);
    } else {
      assert t + rest == rest;
    }
  }

  /** The last identifier of a list: what follows it is not `", "` and an identifier. */
  lemma IdentsLast(t: string, rest: string)
    requires IsIdent(t)
    requires rest != [] && !IsIdentChar(rest[0]) && rest[0] != ','
    ensures Idents(t + rest) == ([t], rest)
  {
    TakeIdentOf(t, rest);
    assert (t + rest)[|t|..] == rest;
    assert !StartsWith(rest, ", ");
  }

  /** An identifier followed by `", "` and a further identifier. */
  lemma IdentsStep(t: string, tail: string)
    requires IsIdent(t) && TakeIdent(tail) != ""
    ensures Idents(t + (", " + tail)) == ([t] + Idents(tail).0, Idents(tail).1)
  {
    TakeIdentOf(t, ", " + tail);
    assert (t + (", " + tail))[|t|..] == ", " + tail;
    assert (", " + tail)[2..] == tail;
  }

  lemma JoinCons(cs: seq<string>, sep: string, rest: string)
    requires |cs| >= 2
    ensures Join(cs, sep) + rest == cs[0] + (sep + (Join(cs[1..], sep) + rest))
  {
  }

  lemma IdentsOfNone(rest: string)
    requires rest != [] && !IsIdentChar(rest[0])
    ensures Idents(Join([], ", ") + rest) == ([], rest)
  {
    assert Join([], ", ") + rest == rest;
    assert TakeIdent(rest) == "";
  }

  lemma IdentsOfOne(c: string, rest: string)
    requires IsIdent(c)
    requires rest != [] && !IsIdentChar(rest[0]) && rest[0] != ','
    ensures Idents(Join([c], ", ") + rest) == ([c], rest)
  {
    assert Join([c], ", ") + rest == c + rest;
    IdentsLast(c, rest);
  }

  /** A `", "`-joined list of identifiers reads back as that list. */
  lemma {:induction false} IdentsOfJoin(cs: seq<string>, rest: string)
    requires forall i :: 0 <= i < |cs| ==> IsIdent(cs[i])
    requires rest != [] && !IsIdentChar(rest[0]) && rest[0] != ','
    ensures Idents(Join(cs, ", ") + rest) == (cs, rest)
    decreases |cs|
  {
    if |cs| == 0 {
      IdentsOfNone(rest);
      assert cs == [];
    } else if |cs| == 1 {
      IdentsOfOne(cs[0], rest);
      assert cs == [cs[0]];
    } else {
      IdentsOfJoin(cs[1..], rest);
      IdentsOfMore(cs, rest);
    }
  }

  lemma IdentsOfMore(cs: seq<string>, rest: string)
    requires |cs| >= 2 && IsIdent(cs[0])
    requires Idents(Join(cs[1..], ", ") + rest) == (cs[1..], rest)
    ensures Idents(Join(cs, ", ") + rest) == (cs, rest)
  {
    JoinCons(cs, ", ", rest);
    IdentsCons(cs[0], cs[1..], Join(cs[1..], ", ") + rest, rest);
    assert [cs[0]] + cs[1..] == cs;
  }

  lemma IdentsCons(c: string, cs: seq<string>, tail: string, rest: string)
    requires IsIdent(c) && cs != [] && Idents(tail) == (cs, rest)
    ensures Idents(c + (", " + tail)) == ([c] + cs, rest)
  {
    assert TakeIdent(tail) != "";
    IdentsStep(c, tail);
  }

  lemma NotLastInsertId(text: string, prefix: string)
    requires |prefix| >= 8 && StartsWith(text, prefix) && prefix[7] != 'L'
    ensures text != LastInsertIdText
  {
    assert text[7] == prefix[7];
  }

  /** An identifier followed by a non-identifier character is taken whole. */
  lemma TakeIdentBefore(t: string, rest: string)
    requires IsIdent(t) && rest != [] && !IsIdentChar(rest[0])
    ensures TakeIdent(t + rest) == t && (t + rest)[|t|..] == rest
  {
    TakeIdentOf(t, rest);
  }

  /** The column list after the opening parenthesis reads back. */
  lemma ColumnsRead(cs: seq<string>, tail: string)
    requires forall i :: 0 <= i < |cs| ==> IsIdent(cs[i])
    requires tail == ") VALUES (" + Placeholders(|cs|) + ")"
    ensures var r1 := " (" + (Join(cs, ", ") + tail);
      StartsWith(r1, " (") && Idents(r1[2..]) == (cs, tail)
  {
    var r1 := " (" + (Join(cs, ", ") + tail);
    assert r1[2..] == Join(cs, ", ") + tail;
    IdentsOfJoin(cs, tail);
  }

  lemma ParseInsertOf(t: string, cs: seq<string>)
    requires WellFormed(Insert(t, cs))
    ensures ParseInsert(t + (" (" + (Join(cs, ", ") + (") VALUES (" + Placeholders(|cs|) + ")")))) == Some(Insert(t, cs))
  {
    var tail := ") VALUES (" + Placeholders(|cs|) + ")";
    TakeIdentBefore(t, " (" + (Join(cs, ", ") + tail));
    ColumnsRead(cs, tail);
  }

  lemma ParseInsertText(s: string)
    ensures Parse("INSERT INTO " + s) == ParseInsert(s)
  {
    var text := "INSERT INTO " + s;
    assert StartsWith(text, "INSERT INTO ");
    assert text[0] == 'I';
    assert text != LastInsertIdText;
    assert !StartsWith(text, "SELECT * FROM ") by {
      assert text[0] != "SELECT * FROM "[0];
    }
    assert text[12..] == s;
  }

  lemma ParseSelectText(s: string)
    ensures Parse("SELECT * FROM " + s) == ParseSelect(s)
  {
    var text := "SELECT * FROM " + s;
    assert StartsWith(text, "SELECT * FROM ");
    NotLastInsertId(text, "SELECT * FROM ");
    assert text[14..] == s;
  }

  /** A text beginning `SELECT * FROM ` is a lookup or a syntax error. */
  lemma SelectTextIsLookup(s: string)
    ensures Parse("SELECT * FROM " + s).None? || Parse("SELECT * FROM " + s).value.SelectWhere?
  {
    ParseSelectText(s);
  }

  lemma InsertReadBack(t: string, cs: seq<string>)
    requires WellFormed(Insert(t, cs))
    ensures Parse(Render(Insert(t, cs))) == Some(Insert(t, cs))
  {
    var s := t + (" (" + (Join(cs, ", ") + (") VALUES (" + Placeholders(|cs|) + ")")));
    assert Render(Insert(t, cs)) == "INSERT INTO " + s;
    ParseInsertText(s);
    ParseInsertOf(t, cs);
  }

  lemma ParseSelectOf(t: string, c: string, k: nat)
    requires IsIdent(t) && IsIdent(c)
    ensures ParseSelect(t + (" WHERE " + (c + (" = " + NatToDec(k))))) == Some(SelectWhere(t, c, k))
  {
    var n := NatToDec(k);
    var r2 := " = " + n;
    var r1 := " WHERE " + (c + r2);
    TakeIdentOf(t, r1);
    assert (t + r1)[|t|..] == r1;
    assert r1[7..] == c + r2;
    TakeIdentOf(c, r2);
    assert (c + r2)[|c|..] == r2;
    assert r2[3..] == n;
    DecValueOfNatToDec(k);
  }

  lemma SelectReadBack(t: string, c: string, k: nat)
    requires WellFormed(SelectWhere(t, c, k))
    ensures Parse(Render(SelectWhere(t, c, k))) == Some(SelectWhere(t, c, k))
  {
    var s := t + (" WHERE " + (c + (" = " + NatToDec(k))));
    var text := "SELECT * FROM " + s;
    assert Render(SelectWhere(t, c, k)) == text;
    NotLastInsertId(text, "SELECT * FROM ");
    assert text[14..] == s;
    ParseSelectOf(t, c, k);
  }

  /** Every well-formed statement is read back as itself. */
  lemma ReadBack(st: Statement)
    requires WellFormed(st)
    ensures Parse(Render(st)) == Some(st)
  {
    match st {
      case Insert(t, cs) => InsertReadBack(t, cs);
      case LastInsertId =>
      case SelectWhere(t, c, k) => SelectReadBack(t, c, k);
    }
  }
}
