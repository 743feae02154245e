/** `parse_date` and `date_serializer` (mapping_collectedinfo_to_schema.py:71-108):
    normalising a date value to `YYYY-MM-DD`. */
module Dates {
  import opened Results
  import opened Text
  import opened Calendar
  import opened Json

  datatype Field = Year | Month | Day

  /** A `strptime` format of three numeric fields joined by one separator. */
  datatype Format = Format(sep: char, first: Field, second: Field, third: Field)

  /** The formats `parse_date` tries, in its order:
      `%Y-%m-%d`, `%d/%m/%Y`, `%m/%d/%Y`, `%Y/%m/%d`, `%d-%m-%Y`, `%m-%d-%Y`. */
  const Formats: seq<Format> := [
    Format('-', Year, Month, Day),
    Format('/', Day, Month, Year),
    Format('/', Month, Day, Year),
    Format('/', Year, Month, Day),
    Format('-', Day, Month, Year),
    Format('-', Month, Day, Year)
  ]

  /** The text `strptime` accepts for a field: `%Y` is four digits,
      `%m` and `%d` are one or two. */
  predicate FieldText(f: Field, s: string) {
    AllDigits(s) && if f == Year then |s| == 4 else 1 <= |s| <= 2
  }

  function Pick(fmt: Format, parts: seq<string>, f: Field): string
    requires |parts| == 3
  {
    if fmt.first == f then parts[0] else if fmt.second == f then parts[1] else parts[2]
  }

  /** `datetime.strptime(s, fmt)` as a date; `None` stands for its `ValueError`
      (text that does not match, or a day the month does not have). */
  function Strptime(s: string, fmt: Format): Option<Date> {
    var parts := Split(s, fmt.sep);
    if |parts| != 3 then None
    else if !FieldText(fmt.first, parts[0]) || !FieldText(fmt.second, parts[1]) || !FieldText(fmt.third, parts[2]) then None
    else
      var ymd := Ymd(DecValue(Pick(fmt, parts, Year)), DecValue(Pick(fmt, parts, Month)), DecValue(Pick(fmt, parts, Day)));
      if IsValid(ymd) then Some(ymd) else None
  }

  /** The loop over the formats: the first one that parses wins. */
  function FirstMatch(s: string, fmts: seq<Format>): Option<Date> {
    if fmts == [] then None
    else match Strptime(s, fmts[0])
      case Some(d) => Some(d)
      case None => FirstMatch(s, fmts[1..])
  }

  /** The `"datetime.date(Y, M, D)"` fallback: the text between the first `(`
      and the next `)`, split on commas, first three pieces read by `int()`.
      `None` stands for any exception, which the bare `except` swallows. */
  function FromDateRepr(s: string): Option<Date> {
    var pieces := Split(s, '(');
    if |pieces| < 2 then None
    else
      var parts := Split(Split(pieces[1], ')')[0], ',');
      if |parts| < 3 then None
      else match (ParseInt(parts[0]), ParseInt(parts[1]), ParseInt(parts[2]))
        case (Some(y), Some(m), Some(d)) =>
          if IsValid(Ymd(y, m, d)) then Some(Ymd(y, m, d)) else None
        case _ => None
  }

  /** `parse_date(v)`: a date renders as `YYYY-MM-DD`; a string is tried against
      the formats, then as a date's repr; anything else comes back unchanged. */
  function ParseDate(v: Value): Value {
    match v
    case VDate(d) => VStr(IsoFormat(d))
    case VStr(s) =>
      (match FirstMatch(s, Formats)
       case Some(d) => VStr(IsoFormat(d))
       case None =>
         if Contains(s, "datetime.date") then
           match FromDateRepr(s)
           case Some(d) => VStr(IsoFormat(d))
           case None => v
         else v)
    case _ => v
  }

  /** `date_serializer(v)`, the `default=` hook for `json.dumps`. */
  function DateSerializer(v: Value): Result<string, PyError> {
    if v.VDate? then Ok(IsoFormat(v.date))
    else Err(TypeError("Type <class '" + TypeName(v) + "'> not serializable"))
  }

  // --------------------------------------------------------------- lemmas

  lemma DigitsLackChar(s: string, c: char)
    requires AllDigits(s) && !IsDigit(c)
    ensures c !in s
  {
  }

  /** Three digit fields joined by a non-digit separator split back apart. */
  lemma SplitThree(a: string, b: string, c: string, sep: char)
    requires AllDigits(a) && AllDigits(b) && AllDigits(c) && !IsDigit(sep)
    ensures Split(a + [sep] + b + [sep] + c, sep) == [a, b, c]
  {
    DigitsLackChar(a, sep);
    DigitsLackChar(b, sep);
    DigitsLackChar(c, sep);
    assert a + [sep] + b + [sep] + c == a + [sep] + (b + [sep] + c);
    SplitAt(a, sep, b + [sep] + c);
    SplitAt(b, sep, c);
    SplitWithout(c, sep);
  }

  /** `%Y-%m-%d` reads a rendering back as the date it came from. */
  lemma IsoFormatReadBack(d: Date)
    ensures Strptime(IsoFormat(d), Formats[0]) == Some(d)
    ensures FirstMatch(IsoFormat(d), Formats) == Some(d)
  {
    IsoFormatShape(d);
    var y, m, dd := PadNat(d.year, 4), PadNat(d.month, 2), PadNat(d.day, 2);
    assert IsoFormat(d) == y + ['-'] + m + ['-'] + dd;
    SplitThree(y, m, dd, '-');
  }

  /** The value `parse_date` returns is its argument or a `YYYY-MM-DD` rendering. */
  lemma ParseDateResult(v: Value) returns (d: Option<Date>)
    ensures d.None? ==> ParseDate(v) == v
    ensures d.Some? ==> ParseDate(v) == VStr(IsoFormat(d.value))
  {
    match v {
      case VDate(x) => d := Some(x);
      case VStr(s) =>
        match FirstMatch(s, Formats) {
          case Some(x) => d := Some(x);
          case None =>
            if Contains(s, "datetime.date") {
              d := FromDateRepr(s);
            } else {
              d := None;
            }
        }
      case _ => d := None;
    }
  }

  /** Normalising twice is normalising once: every output is a fixed point. */
  lemma ParseDateIdempotent(v: Value)
    ensures ParseDate(ParseDate(v)) == ParseDate(v)
  {
    var d := ParseDateResult(v);
    if d.Some? {
      IsoFormatReadBack(d.value);
    }
  }

  /** A format whose separator does not occur in the text fails. */
  lemma StrptimeNoSeparator(s: string, fmt: Format)
    requires fmt.sep !in s
    ensures Strptime(s, fmt).None?
  {
    SplitWithout(s, fmt.sep);
  }

  /** No format matches a text that has none of their separators. */
  lemma {:induction false} NoSeparatorNoMatch(s: string, fmts: seq<Format>)
    requires forall i :: 0 <= i < |fmts| ==> fmts[i].sep !in s
    ensures FirstMatch(s, fmts).None?
  {
    if fmts != [] {
      StrptimeNoSeparator(s, fmts[0]);
      NoSeparatorNoMatch(s, fmts[1..]);
    }
  }

  /** `dd/mm/yyyy`, the day-first spelling of a date. */
  function DayFirstText(d: Date): string {
    PadNat(d.day, 2) + "/" + PadNat(d.month, 2) + "/" + PadNat(d.year, 4)
  }

  lemma DayFirstTextSplits(d: Date)
    ensures '-' !in DayFirstText(d)
    ensures Split(DayFirstText(d), '/') == [PadNat(d.day, 2), PadNat(d.month, 2), PadNat(d.year, 4)]
  {
    IsoFormatShape(d);
    var dd, m, y := PadNat(d.day, 2), PadNat(d.month, 2), PadNat(d.year, 4);
    assert DayFirstText(d) == dd + ['/'] + m + ['/'] + y;
    SplitThree(dd, m, y, '/');
    DigitsLackChar(dd, '-');
    DigitsLackChar(m, '-');
    DigitsLackChar(y, '-');
  }

  /** `%d/%m/%Y` reads the day-first text as the date; `%m/%d/%Y` reads it as
      the date with day and month swapped, whenever that one exists. */
  lemma DayFirstReadings(d: Date)
    ensures Strptime(DayFirstText(d), Formats[1]) == Some(d)
    ensures var swapped := Ymd(d.year, d.day, d.month);
      Strptime(DayFirstText(d), Formats[2]) == if IsValid(swapped) then Some(swapped) else None
  {
    IsoFormatShape(d);
    DayFirstTextSplits(d);
  }

  /** A `dd/mm/yyyy` text is always read day first, because `%d/%m/%Y` is tried
      before `%m/%d/%Y`; when the day is at most 12 and differs from the month,
      the month-first reading is a different valid date, and it loses. */
  lemma DayFirst(d: Date)
    ensures ParseDate(VStr(DayFirstText(d))) == VStr(IsoFormat(d))
    ensures d.day <= 12 && d.day != d.month ==>
      var other := Strptime(DayFirstText(d), Formats[2]);
      other.Some? && other.value != d
  {
    var s := DayFirstText(d);
    DayFirstTextSplits(d);
    DayFirstReadings(d);
    StrptimeNoSeparator(s, Formats[0]);
    assert Formats[1..][0] == Formats[1];
    assert FirstMatch(s, Formats) == Some(d);
    if d.day <= 12 && d.day != d.month {
      assert d.day <= 28;
    }
  }

  lemma {:induction false} SmallDecimals()
    ensures NatToDec(1) == "1" && NatToDec(2) == "2" && NatToDec(2003) == "2003"
  {
    assert NatToDec(20) == "20";
    assert NatToDec(200) == "200";
  }

  lemma {:induction false} SmallPads()
    ensures PadNat(1, 2) == "01" && PadNat(2, 2) == "02" && PadNat(2003, 4) == "2003"
  {
    SmallDecimals();
    assert ZeroPad("01", 2) == "01";
    assert ZeroPad("02", 2) == "02";
  }

  /** The ambiguous example: `01/02/2003` is the first of February. */
  lemma AmbiguousExample()
    ensures ParseDate(VStr("01/02/2003")) == VStr("2003-02-01")
  {
    var d: Date := Ymd(2003, 2, 1);
    SmallPads();
    assert DayFirstText(d) == "01/02/2003";
    assert IsoFormat(d) == "2003-02-01";
    DayFirst(d);
  }

  /** The numbers inside a date's repr, `Y, M, D`. */
  function ReprFields(d: Date): string {
    NatToDec(d.year) + ", " + NatToDec(d.month) + ", " + NatToDec(d.day)
  }

  lemma FieldsLack(y: string, m: string, dd: string, c: char)
    requires AllDigits(y) && AllDigits(m) && AllDigits(dd) && !IsDigit(c) && c != ',' && c != ' '
    ensures c !in y + ", " + m + ", " + dd
  {
    DigitsLackChar(y, c); DigitsLackChar(m, c); DigitsLackChar(dd, c);
  }

  /** Three digit fields joined by `", "` split on the comma into the first
      field and the other two with their leading blank. */
  lemma SplitFields(y: string, m: string, dd: string)
    requires AllDigits(y) && AllDigits(m) && AllDigits(dd)
    ensures Split(y + ", " + m + ", " + dd, ',') == [y, " " + m, " " + dd]
  {
    DigitsLackChar(y, ','); DigitsLackChar(m, ','); DigitsLackChar(dd, ',');
    assert y + ", " + m + ", " + dd == y + [','] + ((" " + m) + [','] + (" " + dd));
    assert ',' !in " " + m && ',' !in " " + dd;
    SplitAt(y, ',', (" " + m) + [','] + (" " + dd));
    SplitAt(" " + m, ',', " " + dd);
    SplitWithout(" " + dd, ',');
  }

  lemma ReprFieldsSplit(d: Date)
    ensures '(' !in ReprFields(d) && ')' !in ReprFields(d)
    ensures '-' !in ReprFields(d) && '/' !in ReprFields(d)
    ensures Split(ReprFields(d), ',') == [NatToDec(d.year), " " + NatToDec(d.month), " " + NatToDec(d.day)]
  {
    var y, m, dd := NatToDec(d.year), NatToDec(d.month), NatToDec(d.day);
    FieldsLack(y, m, dd, '(');
    FieldsLack(y, m, dd, ')');
    FieldsLack(y, m, dd, '-');
    FieldsLack(y, m, dd, '/');
    SplitFields(y, m, dd);
  }

  /** `datetime.date(` + fields + `)` splits on the parentheses back into the fields. */
  lemma ParenSplit(inner: string)
    requires '(' !in inner && ')' !in inner
    ensures var pieces := Split("datetime.date(" + inner + ")", '(');
      |pieces| == 2 && Split(pieces[1], ')')[0] == inner
  {
    var tail := inner + ")";
    assert "datetime.date(" + inner + ")" == "datetime.date" + ['('] + tail;
    assert '(' !in tail;
    SplitAt("datetime.date", '(', tail);
    SplitWithout(tail, '(');
    SplitAt(inner, ')', "");
    assert inner + [')'] + "" == tail;
  }

  lemma ReprLacks(inner: string)
    requires '-' !in inner && '/' !in inner
    ensures '-' !in "datetime.date(" + inner + ")" && '/' !in "datetime.date(" + inner + ")"
  {
  }

  lemma ReprSplitsOnParens(d: Date)
    ensures '-' !in DateRepr(d) && '/' !in DateRepr(d)
    ensures var pieces := Split(DateRepr(d), '(');
      |pieces| == 2 && Split(pieces[1], ')')[0] == ReprFields(d)
  {
    assert DateRepr(d) == "datetime.date(" + ReprFields(d) + ")";
    ReprFieldsSplit(d);
    ParenSplit(ReprFields(d));
    ReprLacks(ReprFields(d));
  }

  /** A field of a date's repr reads back as its component. */
  lemma DecReadBack(n: nat)
    ensures ParseInt(NatToDec(n)) == Some(n)
  {
    ParseIntOfDec(n, 0);
    assert seq(0, _ => ' ') + NatToDec(n) == NatToDec(n);
  }

  lemma SpacedDecReadBack(n: nat)
    ensures ParseInt(" " + NatToDec(n)) == Some(n)
  {
    ParseIntOfDec(n, 1);
    assert seq(1, _ => ' ') + NatToDec(n) == " " + NatToDec(n);
  }

  /** A text whose parenthesised part splits into a date's fields reads back. */
  lemma FromDateReprOf(s: string, d: Date)
    requires |Split(s, '(')| == 2
    requires Split(Split(Split(s, '(')[1], ')')[0], ',') ==
      [NatToDec(d.year), " " + NatToDec(d.month), " " + NatToDec(d.day)]
    ensures FromDateRepr(s) == Some(d)
  {
    DecReadBack(d.year);
    SpacedDecReadBack(d.month);
    SpacedDecReadBack(d.day);
  }

  /** The fallback reads back what `repr` writes for a date: the shape a date
      takes when `str()` of its enclosing dict or list turned it into text. */
  lemma FromDateReprReadBack(d: Date)
    ensures FromDateRepr(DateRepr(d)) == Some(d)
  {
    ReprSplitsOnParens(d);
    ReprFieldsSplit(d);
    FromDateReprOf(DateRepr(d), d);
  }

  /** `parse_date` turns a date's repr into its `YYYY-MM-DD` rendering. */
  lemma DateReprReadBack(d: Date)
    ensures ParseDate(VStr(DateRepr(d))) == VStr(IsoFormat(d))
  {
    var s := DateRepr(d);
    ReprSplitsOnParens(d);
    NoSeparatorNoMatch(s, Formats);
    ContainsAt(s, "datetime.date", 0);
    FromDateReprReadBack(d);
  }

  /** `date_serializer` succeeds exactly on dates, and then agrees with
      `parse_date`; any other value raises `TypeError`. */
  lemma SerializerAgreesWithParseDate(v: Value)
    ensures DateSerializer(v).Ok? <==> v.VDate?
    ensures DateSerializer(v).Ok? ==> ParseDate(v) == VStr(DateSerializer(v).value)
    ensures DateSerializer(v).Err? ==> DateSerializer(v).error.TypeError?
  {
  }
}
