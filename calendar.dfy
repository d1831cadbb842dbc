/** The proleptic Gregorian calendar of Python's `datetime.date`, as far as
    cisoTranscriber.py uses it: going back a number of days from today
    (`today - timedelta(days=delta)`), and writing a date's fields with
    `strftime` ("%Y", "%m", "%d") and `isoformat`. */
module Calendar {
  import opened Text

  datatype Date = Date(year: int, month: int, day: int)

  predicate Leap(y: int) {
    y % 4 == 0 && (y % 100 != 0 || y % 400 == 0)
  }

  function DaysIn(y: int, m: int): int {
    if m == 2 then (if Leap(y) then 29 else 28)
    else if m == 4 || m == 6 || m == 9 || m == 11 then 30
    else 31
  }

  /** A value `datetime.date` accepts: years 1 (MINYEAR) to 9999 (MAXYEAR). */
  predicate ValidDate(d: Date) {
    1 <= d.year <= 9999 && 1 <= d.month <= 12 && 1 <= d.day <= DaysIn(d.year, d.month)
  }

  function YearLength(y: int): int {
    if Leap(y) then 366 else 365
  }

  function DaysBeforeMonth(y: int, m: int): int
    decreases m
  {
    if m <= 1 then 0 else DaysBeforeMonth(y, m - 1) + DaysIn(y, m - 1)
  }

  function DaysBeforeYear(y: int): int
    decreases y
  {
    if y <= 1 then 0 else DaysBeforeYear(y - 1) + YearLength(y - 1)
  }

  /** `date.toordinal()`: 0001-01-01 is day 1, and each date's number is
      the count of days up to and including it. */
  function DayNumber(d: Date): int {
    DaysBeforeYear(d.year) + DaysBeforeMonth(d.year, d.month) + d.day
  }

  /** The twelve months make up the year. */
  lemma {:induction false} MonthsMakeYear(y: int)
    ensures DaysBeforeMonth(y, 12) + DaysIn(y, 12) == YearLength(y)
  {
    var feb := DaysIn(y, 2);
    assert DaysBeforeMonth(y, 2) == 31;
    assert DaysBeforeMonth(y, 3) == 31 + feb;
    assert DaysBeforeMonth(y, 4) == 62 + feb;
    assert DaysBeforeMonth(y, 5) == 92 + feb;
    assert DaysBeforeMonth(y, 6) == 123 + feb;
    assert DaysBeforeMonth(y, 7) == 153 + feb;
    assert DaysBeforeMonth(y, 8) == 184 + feb;
    assert DaysBeforeMonth(y, 9) == 215 + feb;
    assert DaysBeforeMonth(y, 10) == 245 + feb;
    assert DaysBeforeMonth(y, 11) == 276 + feb;
    assert DaysBeforeMonth(y, 12) == 306 + feb;
  }

  /** The last ordinal `datetime.date` accepts: 9999-12-31. */
  function MaxOrdinal(): int {
    DaysBeforeYear(9999) + YearLength(9999)
  }

  /** The year holding day `n` counted from the start of year `y`, and the
      day's number within that year. */
  function YearOf(n: int, y: int): (r: (int, int))
    requires n >= 1 && y >= 1
    ensures y <= r.0 && 1 <= r.1 <= YearLength(r.0)
    ensures DaysBeforeYear(r.0) + r.1 == DaysBeforeYear(y) + n
    decreases n
  {
    if n <= YearLength(y) then (y, n) else YearOf(n - YearLength(y), y + 1)
  }

  /** A day within year `bound` or earlier is found in year `bound` or earlier. */
  lemma {:induction false} YearOfBound(n: int, y: int, bound: int)
    requires n >= 1 && 1 <= y <= bound
    requires DaysBeforeYear(y) + n <= DaysBeforeYear(bound) + YearLength(bound)
    ensures YearOf(n, y).0 <= bound
    decreases n
  {
    if n > YearLength(y) {
      assert y < bound;
      YearOfBound(n - YearLength(y), y + 1, bound);
    }
  }

  /** The month holding day `k` of year `y` counted from the start of month
      `m`, and the day of that month. */
  function MonthOf(y: int, k: int, m: int): (r: (int, int))
    requires 1 <= m <= 12 && 1 <= k && DaysBeforeMonth(y, m) + k <= YearLength(y)
    ensures m <= r.0 <= 12 && 1 <= r.1 <= DaysIn(y, r.0)
    ensures DaysBeforeMonth(y, r.0) + r.1 == DaysBeforeMonth(y, m) + k
    decreases 12 - m
  {
    if k <= DaysIn(y, m) then (m, k)
    else
      MonthsMakeYear(y);
      MonthOf(y, k - DaysIn(y, m), m + 1)
  }

  /** `date.fromordinal(n)`. Python subtracts a `timedelta` from a date by
      going through the ordinal: `d - timedelta(days=k)` is
      `FromOrdinal(DayNumber(d) - k)`, and raises OverflowError outside
      1 to MaxOrdinal(). */
  function FromOrdinal(n: int): (r: Date)
    requires 1 <= n <= MaxOrdinal()
    ensures ValidDate(r)
    ensures DayNumber(r) == n
  {
    var yk := YearOf(n, 1);
    YearOfBound(n, 1, 9999);
    var md := MonthOf(yk.0, yk.1, 1);
    Date(yk.0, md.0, md.1)
  }

  // ----------------------------------------------------------------------
  // strftime fields
  // ----------------------------------------------------------------------

  /** A two-digit zero-padded field ("%m", "%d"). */
  function Pad2(n: int): string
    requires 0 <= n < 100
  {
    [DigitChar(n / 10), DigitChar(n % 10)]
  }

  /** A four-digit zero-padded field ("%Y"). */
  function Pad4(n: int): string
    requires 0 <= n < 10000
  {
    Pad2(n / 100) + Pad2(n % 100)
  }

  /** Reading a two-digit field gives the number back. */
  lemma Pad2Value(n: int)
    requires 0 <= n < 100
    ensures |Pad2(n)| == 2 && DigitsValue(Pad2(n)) == n
  {
    var s := Pad2(n);
    assert s[..1] == [DigitChar(n / 10)];
    assert DigitsValue(s[..1]) == n / 10 by {
      assert s[..1][..0] == [];
    }
  }

  /** Reading a four-digit field gives the number back. */
  lemma {:induction false} Pad4Value(n: int)
    requires 0 <= n < 10000
    ensures |Pad4(n)| == 4 && DigitsValue(Pad4(n)) == n
  {
    var hi, lo := Pad2(n / 100), Pad2(n % 100);
    var s := hi + lo;
    Pad2Value(n / 100);
    assert s[..3][..2] == hi;
    assert s[..3] == hi + [lo[0]];
    assert DigitsValue(s[..3]) == DigitsValue(hi) * 10 + (lo[0] as int - '0' as int);
    assert s[..4] == s;
    assert DigitsValue(s) == DigitsValue(s[..3]) * 10 + (lo[1] as int - '0' as int);
    assert DigitsValue(s) == (n / 100) * 100 + (n % 100 / 10) * 10 + n % 100 % 10;
  }

  function Yyyy(d: Date): string
    requires ValidDate(d)
  {
    Pad4(d.year)
  }

  function Mm(d: Date): string
    requires ValidDate(d)
  {
    Pad2(d.month)
  }

  function Dd(d: Date): string
    requires ValidDate(d)
  {
    Pad2(d.day)
  }

  /** The three fields have their widths and read back as the date's year,
      month and day. */
  lemma FieldsRead(d: Date)
    requires ValidDate(d)
    ensures |Yyyy(d)| == 4 && DigitsValue(Yyyy(d)) == d.year
    ensures |Mm(d)| == 2 && DigitsValue(Mm(d)) == d.month
    ensures |Dd(d)| == 2 && DigitsValue(Dd(d)) == d.day
  {
    Pad4Value(d.year);
    Pad2Value(d.month);
    Pad2Value(d.day);
  }

  /** `date.isoformat()`: "YYYY-MM-DD". */
  function IsoFormat(d: Date): string
    requires ValidDate(d)
  {
    Yyyy(d) + "-" + Mm(d) + "-" + Dd(d)
  }

  /** The ISO form reads back as the date. */
  lemma IsoFormatReads(d: Date)
    requires ValidDate(d)
    ensures var r := IsoFormat(d);
      |r| == 10 && r[4] == '-' && r[7] == '-' &&
      DigitsValue(r[..4]) == d.year && DigitsValue(r[5..7]) == d.month && DigitsValue(r[8..]) == d.day
  {
    FieldsRead(d);
    var r := IsoFormat(d);
    assert r[..4] == Yyyy(d) && r[5..7] == Mm(d) && r[8..] == Dd(d);
  }
}
