/** Proleptic Gregorian calendar dates as Python's `datetime.date` holds them
    (years 1 to 9999), with their two renderings: `strftime("%Y-%m-%d")`,
    which is also `str(date)`, and `repr(date)`. */
module Calendar {
  import opened Text

  datatype Ymd = Ymd(year: int, month: int, day: int)

  predicate IsLeapYear(y: int) {
    y % 4 == 0 && (y % 100 != 0 || y % 400 == 0)
  }

  function DaysInMonth(y: int, m: int): int
    requires 1 <= m <= 12
  {
    if m == 2 then (if IsLeapYear(y) then 29 else 28)
    else if m == 4 || m == 6 || m == 9 || m == 11 then 30
    else 31
  }

  /** The check `date(year, month, day)` makes before it accepts its arguments. */
  predicate IsValid(d: Ymd) {
    && 1 <= d.year <= 9999
    && 1 <= d.month <= 12
    && 1 <= d.day <= DaysInMonth(d.year, d.month)
  }

  type Date = d: Ymd | IsValid(d) witness Ymd(1, 1, 1)

  /** `date.strftime("%Y-%m-%d")`: four-digit year, two-digit month and day.
      (The year is zero-padded, as RFC 3339 `full-date` requires.) */
  function IsoFormat(d: Date): string {
    PadNat(d.year, 4) + "-" + PadNat(d.month, 2) + "-" + PadNat(d.day, 2)
  }

  /** `repr(date)`, e.g. `datetime.date(2003, 12, 13)`. */
  function DateRepr(d: Date): string {
    "datetime.date(" + NatToDec(d.year) + ", " + NatToDec(d.month) + ", " + NatToDec(d.day) + ")"
  }

  /** The rendering is exactly `YYYY-MM-DD`: ten characters, digits apart from
      the two dashes, and each digit field reads back as its component. */
  lemma IsoFormatShape(d: Date)
    ensures var s := IsoFormat(d);
      && |s| == 10 && s[4] == '-' && s[7] == '-'
      && s[..4] == PadNat(d.year, 4) && s[5..7] == PadNat(d.month, 2) && s[8..] == PadNat(d.day, 2)
      && AllDigits(s[..4]) && DecValue(s[..4]) == d.year
      && AllDigits(s[5..7]) && DecValue(s[5..7]) == d.month
      && AllDigits(s[8..]) && DecValue(s[8..]) == d.day
  {
    assert Pow10(2) == 100 && Pow10(4) == 10000 by {
      assert Pow10(1) == 10;
      assert Pow10(3) == 1000;
    }
    PadNatFacts(d.year, 4);
    PadNatFacts(d.month, 2);
    PadNatFacts(d.day, 2);
  }
}
