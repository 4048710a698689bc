/** Calendar dates and the part of Python's `datetime.strptime` that the
    statement readers use: three numeric fields separated by one character,
    drawn from the directives %m, %d, %Y and %y. */
module Dates {
  import opened Wrappers
  import opened Text
  import opened Numbers

  datatype Date = Date(year: int, month: int, day: int)

  /** A timestamp to the second (pandas keeps finer fractions; none arise here). */
  datatype DateTime = DateTime(date: Date, hour: int, minute: int, second: int)

  function Midnight(d: Date): DateTime {
    DateTime(d, 0, 0, 0)
  }

  predicate IsLeapYear(y: int) {
    y % 4 == 0 && (y % 100 != 0 || y % 400 == 0)
  }

  function DaysInMonth(y: int, m: int): int
    requires 1 <= m <= 12
  {
    if m == 2 then (if IsLeapYear(y) then 29 else 28)
    else if m == 4 || m == 6 || m == 9 || m == 11 then 30
    else 31
  }

  /** What `datetime.date(year, month, day)` accepts: years 1 to 9999 and a real day of that month. */
  predicate ValidDate(d: Date) {
    1 <= d.year <= 9999 && 1 <= d.month <= 12 && 1 <= d.day <= DaysInMonth(d.year, d.month)
  }

  predicate ValidDateTime(t: DateTime) {
    ValidDate(t.date) && 0 <= t.hour < 24 && 0 <= t.minute < 60 && 0 <= t.second < 60
  }

  /** Calendar order. */
  predicate DateLe(a: Date, b: Date) {
    a.year < b.year || (a.year == b.year && (a.month < b.month || (a.month == b.month && a.day <= b.day)))
  }

  const FirstTimestampDay := Date(1677, 9, 22)
  const LastTimestampDay := Date(2262, 4, 11)

  /** The instants a pandas Timestamp holds, to the day: its nanosecond
      counter spans 1677-09-21 00:12:43 to 2262-04-11 23:47:16, and the first
      whole day in it is 1677-09-22. */
  predicate InTimestampRange(t: DateTime) {
    ValidDateTime(t) && DateLe(FirstTimestampDay, t.date) && DateLe(t.date, LastTimestampDay)
  }

  type Timestamp = t: DateTime | InTimestampRange(t) witness DateTime(Date(2000, 1, 1), 0, 0, 0)

  /** The Timestamp of a parsed date, at midnight; None stands for the
      OutOfBoundsDatetime error pandas raises for a date it cannot hold. */
  function ToTimestamp(d: Date): (r: Option<Timestamp>)
    requires ValidDate(d)
    ensures r.Some? <==> DateLe(FirstTimestampDay, d) && DateLe(d, LastTimestampDay)
    ensures r.Some? ==> r.value == Midnight(d)
  {
    if DateLe(FirstTimestampDay, d) && DateLe(d, LastTimestampDay) then Some(Midnight(d)) else None
  }

  /** `strftime('%Y-%m-%d %H:%M:%S')`. */
  function Strftime(t: Timestamp): string {
    PadDigits(t.date.year, 4) + "-" + PadDigits(t.date.month, 2) + "-" + PadDigits(t.date.day, 2)
    + " " + PadDigits(t.hour, 2) + ":" + PadDigits(t.minute, 2) + ":" + PadDigits(t.second, 2)
  }

  /** The text is 19 characters with the separators in place, and each field
      reads back as the value it was written from. */
  lemma StrftimeFields(t: Timestamp)
    ensures var s := Strftime(t);
            |s| == 19 && s[4] == '-' && s[7] == '-' && s[10] == ' ' && s[13] == ':' && s[16] == ':'
            && IsDigits(s[..4]) && DigitsValue(s[..4]) == t.date.year
            && IsDigits(s[5..7]) && DigitsValue(s[5..7]) == t.date.month
            && IsDigits(s[8..10]) && DigitsValue(s[8..10]) == t.date.day
            && IsDigits(s[11..13]) && DigitsValue(s[11..13]) == t.hour
            && IsDigits(s[14..16]) && DigitsValue(s[14..16]) == t.minute
            && IsDigits(s[17..]) && DigitsValue(s[17..]) == t.second
  {
    assert Pow10(2) == 100 && Pow10(4) == 10000;
    var y, mo, d := PadDigits(t.date.year, 4), PadDigits(t.date.month, 2), PadDigits(t.date.day, 2);
    var h, mi, se := PadDigits(t.hour, 2), PadDigits(t.minute, 2), PadDigits(t.second, 2);
    StampLayout(Strftime(t), y, mo, d, h, mi, se);
  }

  /** Where the six fields sit in `Y-m-d H:M:S`. */
  lemma StampLayout(s: string, y: string, mo: string, d: string, h: string, mi: string, se: string)
    requires |y| == 4 && |mo| == 2 && |d| == 2 && |h| == 2 && |mi| == 2 && |se| == 2
    requires s == y + "-" + mo + "-" + d + " " + h + ":" + mi + ":" + se
    ensures |s| == 19 && s[4] == '-' && s[7] == '-' && s[10] == ' ' && s[13] == ':' && s[16] == ':'
    ensures s[..4] == y && s[5..7] == mo && s[8..10] == d && s[11..13] == h && s[14..16] == mi && s[17..] == se
  {
    var date := y + "-" + mo + "-" + d;
    var time := h + ":" + mi + ":" + se;
    assert s == date + " " + time;
    assert date[..4] == y && date[5..7] == mo && date[8..] == d;
    assert time[..2] == h && time[3..5] == mi && time[6..] == se;
  }

  /** Two Timestamps written the same are the same Timestamp. */
  lemma StrftimeInjective(t: Timestamp, u: Timestamp)
    requires Strftime(t) == Strftime(u)
    ensures t == u
  {
    StrftimeFields(t);
    StrftimeFields(u);
  }

  /** The strptime directives that occur in the date formats. */
  datatype Directive =
    | MonthNumber   // %m
    | DayNumber     // %d
    | FullYear      // %Y
    | ShortYear     // %y

  /** A format of three directives joined by one separator character, such as `%m/%d/%Y`. */
  datatype Format = Format(first: Directive, second: Directive, third: Directive, sep: char)

  const MonthDayYear := Format(MonthNumber, DayNumber, FullYear, '/')        // %m/%d/%Y
  const MonthDayShortYear := Format(MonthNumber, DayNumber, ShortYear, '/')  // %m/%d/%y
  const YearMonthDay := Format(FullYear, MonthNumber, DayNumber, '-')        // %Y-%m-%d
  const DayMonthYearDashed := Format(DayNumber, MonthNumber, FullYear, '-')  // %d-%m-%Y
  const DayMonthYear := Format(DayNumber, MonthNumber, FullYear, '/')        // %d/%m/%Y

  predicate IsNonZeroDigit(c: char) {
    '1' <= c <= '9'
  }

  /** The text a directive's pattern in CPython's `_strptime` matches in full:
      %m is `1[0-2]|0[1-9]|[1-9]`, %d is `3[01]|[12]\d|0[1-9]|[1-9]| [1-9]`,
      %Y is four digits and %y two. */
  predicate IsToken(dir: Directive, t: string) {
    match dir
    case MonthNumber =>
      (|t| == 2 && ((t[0] == '1' && '0' <= t[1] <= '2') || (t[0] == '0' && IsNonZeroDigit(t[1]))))
      || (|t| == 1 && IsNonZeroDigit(t[0]))
    case DayNumber =>
      (|t| == 2 && ((t[0] == '3' && '0' <= t[1] <= '1') || ('1' <= t[0] <= '2' && IsDigit(t[1]))
                    || (t[0] == '0' && IsNonZeroDigit(t[1])) || (t[0] == ' ' && IsNonZeroDigit(t[1]))))
      || (|t| == 1 && IsNonZeroDigit(t[0]))
    case FullYear => |t| == 4 && IsDigits(t)
    case ShortYear => |t| == 2 && IsDigits(t)
  }

  /** The number a matched token stands for; a %y year of 68 or less is in the
      2000s, a larger one in the 1900s. */
  function TokenValue(dir: Directive, t: string): int
    requires IsToken(dir, t)
  {
    var digits := if t[0] == ' ' then t[1..] else t;
    var v := DigitsValue(digits);
    if dir == ShortYear then (if v <= 68 then 2000 + v else 1900 + v) else v
  }

  /** The value of the field that carries `dir`, or 0 when no field does. */
  function FieldValue(f: Format, dir: Directive, a: string, b: string, c: string): int
    requires IsToken(f.first, a) && IsToken(f.second, b) && IsToken(f.third, c)
  {
    if f.first == dir then TokenValue(dir, a)
    else if f.second == dir then TokenValue(dir, b)
    else if f.third == dir then TokenValue(dir, c)
    else 0
  }

  /** The date three matched fields stand for, when it exists. The year is
      the %y field when the format has one, otherwise the %Y field. */
  function FieldsDate(f: Format, a: string, b: string, c: string): (r: Option<Date>)
    requires IsToken(f.first, a) && IsToken(f.second, b) && IsToken(f.third, c)
    ensures r.Some? ==> ValidDate(r.value)
  {
    var year := if f.first == ShortYear || f.second == ShortYear || f.third == ShortYear
                then FieldValue(f, ShortYear, a, b, c) else FieldValue(f, FullYear, a, b, c);
    var d := Date(year, FieldValue(f, MonthNumber, a, b, c), FieldValue(f, DayNumber, a, b, c));
    if ValidDate(d) then Some(d) else None
  }

  /** `datetime.strptime(s, f)` for the formats above, None standing for the
      ValueError. Fields are matched left to right: a field that is not the last
      must be exactly the text before the next separator (its pattern takes
      only digits and blanks), and the last field must be all that remains.
      The date must then exist. */
  function Strptime(s: string, f: Format): (r: Option<Date>)
    ensures r.Some? ==> ValidDate(r.value)
  {
    var i := IndexOf(s, f.sep);
    if i == |s| then None
    else
      var a, rest := s[..i], s[i + 1..];
      var j := IndexOf(rest, f.sep);
      if j == |rest| then None
      else
        var b, c := rest[..j], rest[j + 1..];
        if IsToken(f.first, a) && IsToken(f.second, b) && IsToken(f.third, c) then FieldsDate(f, a, b, c)
        else None
  }

  /** Text cut at the first `sep`: what comes before it and what comes after. */
  lemma SplitAtFirst(s: string, sep: char, a: string, rest: string)
    requires sep !in a && s == a + [sep] + rest
    ensures IndexOf(s, sep) == |a| && s[..|a|] == a && s[|a| + 1..] == rest
  {
    forall k | 0 <= k < |a| ensures s[k] != sep {
      assert s[k] == a[k];
    }
    IndexOfAt(s, sep, |a|);
  }

  /** The fields of a successful parse are the three pieces between separators. */
  lemma StrptimeFields(s: string, f: Format, a: string, b: string, c: string)
    requires f.sep !in a && f.sep !in b
    requires s == a + [f.sep] + b + [f.sep] + c
    requires IsToken(f.first, a) && IsToken(f.second, b) && IsToken(f.third, c)
    ensures Strptime(s, f) == FieldsDate(f, a, b, c)
  {
    var rest := b + [f.sep] + c;
    assert s == a + [f.sep] + rest;
    SplitAtFirst(s, f.sep, a, rest);
    SplitAtFirst(rest, f.sep, b, c);
    StrptimeOfPieces(s, f, rest);
  }

  lemma StrptimeOfPieces(s: string, f: Format, rest: string)
    requires IndexOf(s, f.sep) < |s| && rest == s[IndexOf(s, f.sep) + 1..] && IndexOf(rest, f.sep) < |rest|
    requires var a, b, c := s[..IndexOf(s, f.sep)], rest[..IndexOf(rest, f.sep)], rest[IndexOf(rest, f.sep) + 1..];
             IsToken(f.first, a) && IsToken(f.second, b) && IsToken(f.third, c)
    ensures var a, b, c := s[..IndexOf(s, f.sep)], rest[..IndexOf(rest, f.sep)], rest[IndexOf(rest, f.sep) + 1..];
            Strptime(s, f) == FieldsDate(f, a, b, c)
  {
  }

  /** `%m/%d/%Y` on month, day and four-digit year fields reads the date they
      spell, when it exists. */
  lemma MonthDayYearOf(s: string, a: string, b: string, c: string, month: nat, day: nat, year: nat)
    requires s == a + ['/'] + b + ['/'] + c
    requires IsToken(MonthNumber, a) && IsToken(DayNumber, b) && IsToken(FullYear, c) && b[0] != ' '
    requires DigitsValue(a) == month && DigitsValue(b) == day && DigitsValue(c) == year
    requires ValidDate(Date(year, month, day))
    ensures Strptime(s, MonthDayYear) == Some(Date(year, month, day))
  {
    TokenChars(MonthNumber, a);
    TokenChars(DayNumber, b);
    StrptimeFields(s, MonthDayYear, a, b, c);
    MonthDayYearFields(a, b, c);
  }

  /** A matched token holds only digits and blanks, so no separator. */
  lemma TokenChars(dir: Directive, t: string)
    requires IsToken(dir, t)
    ensures '/' !in t && '-' !in t
  {
  }

  /** The fields of `%m/%d/%Y`, the day not blank-padded, stand for the date
      they spell. */
  lemma MonthDayYearFields(a: string, b: string, c: string)
    requires IsToken(MonthNumber, a) && IsToken(DayNumber, b) && IsToken(FullYear, c) && b[0] != ' '
    ensures var d := Date(DigitsValue(c), DigitsValue(a), DigitsValue(b));
            FieldsDate(MonthDayYear, a, b, c) == if ValidDate(d) then Some(d) else None
  {
    assert IsDigits(a) && IsDigits(b);
  }
}
