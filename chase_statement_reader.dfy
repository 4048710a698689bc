/** The Chase PDF statement reader: the statement year taken from the
    statement period on the first page, and the line scanner that turns page
    text into dated, described, signed transactions sorted by date. Page text
    is an input (None for a page without extractable text). */
module ChaseStatementReader {
  import opened Wrappers
  import opened Text
  import opened Numbers
  import opened Dates
  import opened PdfStatementReader

  // ---------------------------------------------------------------------
  // The statement period `(\d{1,2}/\d{1,2}/(\d{2}|\d{4}))\s*-\s*(\d{1,2}/\d{1,2}/(\d{2}|\d{4}))`,
  // matched on the text that remains at each point: every matcher below
  // gives back the rest of the text after what it consumed.
  // ---------------------------------------------------------------------

  /** The number of leading digits of `s`. */
  function DigitRun(s: string): (n: nat)
    ensures n <= |s|
    ensures forall k :: 0 <= k < n ==> IsDigit(s[k])
    ensures n == |s| || !IsDigit(s[n])
  {
    if s != [] && IsDigit(s[0]) then 1 + DigitRun(s[1..]) else 0
  }

  /** The number of leading blanks (`\s`) of `s`. */
  function BlankRun(s: string): (n: nat)
    ensures n <= |s|
    ensures forall k :: 0 <= k < n ==> IsSpace(s[k])
    ensures n == |s| || !IsSpace(s[n])
  {
    if s != [] && IsSpace(s[0]) then 1 + BlankRun(s[1..]) else 0
  }

  /** `\d{1,2}/`. Whether one or two digits are taken, the next character must
      be the slash, so the run of digits itself must be one or two long. */
  function ShortField(s: string): (r: Option<string>)
  {
    var n := DigitRun(s);
    if 1 <= n <= 2 && n < |s| && s[n] == '/' then Some(s[n + 1..]) else None
  }

  /** `(\d{2}|\d{4})\s*-\s*`: the opening year must be a run of exactly two or
      exactly four digits, because a blank or the dash has to follow it. */
  function OpeningYearAndDash(s: string): (r: Option<string>)
  {
    var n := DigitRun(s);
    if n == 2 || n == 4 then
      var t := s[n..];
      var b := BlankRun(t);
      if b < |t| && t[b] == '-' then
        var u := t[b + 1..];
        Some(u[BlankRun(u)..])
      else None
    else None
  }

  /** The pattern anchored at the start of `s`: where it matches, the text
      from the closing year (group 4) on, which starts with two digits or more. */
  function RangeAt(s: string): (r: Option<string>)
    ensures r.Some? ==> DigitRun(r.value) >= 2
  {
    var openDay :- ShortField(s);
    var openYear :- ShortField(openDay);
    var closeMonth :- OpeningYearAndDash(openYear);
    var closeDay :- ShortField(closeMonth);
    var closeYear :- ShortField(closeDay);
    if DigitRun(closeYear) >= 2 then Some(closeYear) else None
  }

  /** `re.search` for a pattern that `matchAt` matches at the start of a
      text: the match at the first position where there is one. */
  function Search(matchAt: string -> Option<string>, s: string): Option<string>
    decreases |s|
  {
    if matchAt(s).Some? then matchAt(s)
    else if s == [] then None
    else Search(matchAt, s[1..])
  }

  /** The search fails exactly when the pattern matches at no position, and
      otherwise returns the match at the first position where it matches. */
  lemma {:induction false} SearchLeftmost(matchAt: string -> Option<string>, s: string)
    ensures Search(matchAt, s).None? <==> forall k :: 0 <= k <= |s| ==> matchAt(s[k..]).None?
    ensures Search(matchAt, s).Some? ==>
              exists k :: 0 <= k <= |s| && matchAt(s[k..]) == Search(matchAt, s)
                          && forall j :: 0 <= j < k ==> matchAt(s[j..]).None?
    decreases |s|
  {
    if matchAt(s).Some? {
      assert s[0..] == s;
    } else if s == [] {
      assert forall k :: 0 <= k <= |s| ==> s[k..] == s;
    } else {
      var r := Search(matchAt, s[1..]);
      SearchLeftmost(matchAt, s[1..]);
      assert forall k :: 1 <= k <= |s| ==> s[1..][k - 1..] == s[k..];
      assert s[0..] == s;
      if r.Some? {
        var k :| 0 <= k <= |s[1..]| && matchAt(s[1..][k..]) == r
                 && forall j :: 0 <= j < k ==> matchAt(s[1..][j..]).None?;
        assert matchAt(s[k + 1..]) == r;
      }
    }
  }

  /** The search for the statement's date range. */
  function SearchRange(s: string): (r: Option<string>)
    ensures r.Some? ==> DigitRun(r.value) >= 2
  {
    SearchLeftmost(RangeAt, s);
    Search(RangeAt, s)
  }

  /** The year a `year_str` stands for: two digits are 2000 + YY, otherwise the number itself. */
  function YearValue(yearText: string): nat
    requires IsDigits(yearText)
  {
    if |yearText| == 2 then 2000 + DigitsValue(yearText) else DigitsValue(yearText)
  }

  /** `match.group(4)` as the pattern is written: `\d{2}` is tried first and
      nothing follows the group, so it is always the first two digits, even
      of a four-digit year. */
  function ClosingYearTextAsWritten(t: string): (y: string)
    requires DigitRun(t) >= 2
    ensures |y| == 2 && IsDigits(y) && y == t[..2]
  {
    t[..2]
  }

  /** `match.group(4)` with the alternatives in the intended order: the whole
      four-digit year when there is one, else the two-digit year. */
  function ClosingYearText(t: string): (y: string)
    requires DigitRun(t) >= 2
    ensures |y| == 4 <==> DigitRun(t) >= 4
    ensures (|y| == 4 || |y| == 2) && IsDigits(y) && y == t[..|y|]
  {
    if DigitRun(t) >= 4 then t[..4] else t[..2]
  }

  /** `extract_statement_year` as written: the current year when there is no
      first page, the page has no text, or no range matches; otherwise a year
      of the 2000s, whatever the statement says. */
  function StatementYearAsWritten(pages: seq<Option<string>>, currentYear: nat): (y: nat)
    ensures y == currentYear || 2000 <= y <= 2099
  {
    if pages == [] || pages[0].None? then currentYear
    else
      match SearchRange(pages[0].value)
      case None => currentYear
      case Some(t) =>
        var yearText := ClosingYearTextAsWritten(t);
        DigitsValueBounds(yearText);
        assert Pow10(2) == 100;
        YearValue(yearText)
  }

  /** `extract_statement_year` with the closing year read in full; this is
      the year the line scanner below uses. */
  function StatementYear(pages: seq<Option<string>>, currentYear: nat): (y: nat)
    ensures pages == [] || pages[0].None? || SearchRange(pages[0].value).None? ==> y == currentYear
  {
    if pages == [] || pages[0].None? then currentYear
    else
      match SearchRange(pages[0].value)
      case None => currentYear
      case Some(t) => YearValue(ClosingYearText(t))
  }

  /** The closing year is read as the statement writes it: four digits as
      themselves, two as 2000 + YY. */
  lemma StatementYearReadsClosingYear(s: string, currentYear: nat, t: string)
    requires SearchRange(s) == Some(t)
    ensures DigitRun(t) >= 2
    ensures var y := ClosingYearText(t);
            y == t[..|y|] && (|y| == 4 <==> DigitRun(t) >= 4)
            && StatementYear([Some(s)], currentYear) == if |y| == 4 then DigitsValue(y) else 2000 + DigitsValue(y)
  {
    var y := ClosingYearText(t);
    assert [Some(s)][0].value == s;
    assert StatementYear([Some(s)], currentYear) == YearValue(y);
  }

  /** As written, only the first two digits of the closing year are read, as
      2000 + those: the four-digit branch is never taken. */
  lemma AsWrittenTruncatesYear(s: string, currentYear: nat, t: string)
    requires SearchRange(s) == Some(t)
    ensures DigitRun(t) >= 2
    ensures StatementYearAsWritten([Some(s)], currentYear) == 2000 + DigitsValue(t[..2])
  {
  }

  /** Text that opens with the statement period "M/D/Y - M/D/Y": the pattern
      matches at the very start, and group 4 starts at the closing year. */
  lemma PeriodAtStart(s: string, m1: string, d1: string, y1: string, m2: string, d2: string, closing: string)
    requires 1 <= |m1| <= 2 && 1 <= |d1| <= 2 && (|y1| == 2 || |y1| == 4) && 1 <= |m2| <= 2 && 1 <= |d2| <= 2
    requires IsDigits(m1) && IsDigits(d1) && IsDigits(y1) && IsDigits(m2) && IsDigits(d2) && DigitRun(closing) >= 2
    requires s == m1 + "/" + (d1 + "/" + (y1 + " - " + (m2 + "/" + (d2 + "/" + closing))))
    ensures SearchRange(s) == Some(closing)
  {
    var t3 := d2 + "/" + closing;
    var t2 := m2 + "/" + t3;
    var t1 := y1 + " - " + t2;
    var t0 := d1 + "/" + t1;
    ShortFieldOf(m1, t0);
    ShortFieldOf(d1, t1);
    OpeningYearOf(y1, t2);
    ShortFieldOf(m2, t3);
    ShortFieldOf(d2, closing);
    assert RangeAt(s) == Some(closing);
  }

  /** Digits followed by text that does not start with a digit. */
  lemma {:induction false} DigitRunOf(w: string, x: string)
    requires IsDigits(w) && (x == [] || !IsDigit(x[0]))
    ensures DigitRun(w + x) == |w|
  {
    if w != [] {
      assert (w + x)[1..] == w[1..] + x;
      DigitRunOf(w[1..], x);
    } else {
      assert w + x == x;
    }
  }

  lemma ShortFieldOf(w: string, x: string)
    requires 1 <= |w| <= 2 && IsDigits(w)
    ensures ShortField(w + "/" + x) == Some(x)
  {
    var s := w + "/" + x;
    assert s == w + ("/" + x);
    DigitRunOf(w, "/" + x);
    assert s[|w| + 1..] == x;
  }

  lemma OpeningYearOf(y: string, x: string)
    requires (|y| == 2 || |y| == 4) && IsDigits(y)
    requires x == [] || !IsSpace(x[0])
    ensures OpeningYearAndDash(y + " - " + x) == Some(x)
  {
    var s := y + " - " + x;
    assert s == y + (" - " + x);
    DigitRunOf(y, " - " + x);
    var t := s[|y|..];
    assert t == " - " + x;
    assert BlankRun(t[1..]) == 0;
    assert t[2..] == " " + x;
    assert BlankRun(t[2..]) == 1 by {
      assert t[2..][1..] == x;
    }
    assert t[2..][1..] == x;
  }

  /** The statement period "11/16/2025 - 12/15/2025": as written the year is
      2020, read in full it is 2025. */
  lemma FourDigitPeriodExample(currentYear: nat)
    ensures StatementYearAsWritten([Some("11/16/2025 - 12/15/2025")], currentYear) == 2020
    ensures StatementYear([Some("11/16/2025 - 12/15/2025")], currentYear) == 2025
  {
    FourDigitPeriod("11/16/2025 - 12/15/2025", currentYear);
  }

  lemma FourDigitPeriod(s: string, currentYear: nat)
    requires s == "11/16/2025 - 12/15/2025"
    ensures StatementYearAsWritten([Some(s)], currentYear) == 2020
    ensures StatementYear([Some(s)], currentYear) == 2025
  {
    var closing := "2025";
    FourDigitPeriodRange(s, closing);
    AsWrittenTruncatesYear(s, currentYear, closing);
    StatementYearReadsClosingYear(s, currentYear, closing);
    ClosingYearOfExample(closing);
  }

  /** The pattern finds the example period at the start, group 4 at "2025". */
  lemma FourDigitPeriodRange(s: string, closing: string)
    requires s == "11/16/2025 - 12/15/2025" && closing == "2025"
    ensures SearchRange(s) == Some(closing)
  {
    FourDigitPeriodParts(s, closing);
    ExampleFields("11", "16", "2025", "12", "15", closing);
    PeriodAtStart(s, "11", "16", "2025", "12", "15", closing);
  }

  lemma FourDigitPeriodParts(s: string, closing: string)
    requires s == "11/16/2025 - 12/15/2025" && closing == "2025"
    ensures s == "11" + "/" + ("16" + "/" + ("2025" + " - " + ("12" + "/" + ("15" + "/" + closing))))
  {
  }

  lemma ExampleFields(m1: string, d1: string, y1: string, m2: string, d2: string, closing: string)
    requires m1 == "11" && d1 == "16" && y1 == "2025" && m2 == "12" && d2 == "15" && closing == "2025"
    ensures IsDigits(m1) && IsDigits(d1) && IsDigits(y1) && IsDigits(m2) && IsDigits(d2) && DigitRun(closing) >= 2
  {
    DigitRunOf(closing, []);
    assert closing + [] == closing;
  }

  /** "2025" read in full is 2025; its first two digits are 20. */
  lemma ClosingYearOfExample(closing: string)
    requires closing == "2025"
    ensures DigitRun(closing) == 4
    ensures ClosingYearText(closing) == closing && DigitsValue(closing) == 2025
    ensures DigitsValue(closing[..2]) == 20
  {
    DigitRunOf(closing, []);
    assert closing + [] == closing;
    assert closing[..2] == "20" && closing[..4] == closing;
    TwoDigitsValue("20");
    FourDigitsValue(closing);
  }

  lemma TwoDigitsValue(s: string)
    requires s == "20"
    ensures IsDigits(s) && DigitsValue(s) == 20
  {
    assert s[..1] == "2" && "2"[..0] == "";
  }

  lemma FourDigitsValue(s: string)
    requires s == "2025"
    ensures IsDigits(s) && DigitsValue(s) == 2025
  {
    assert s[..3] == "202" && "202"[..2] == "20" && "20"[..1] == "2" && "2"[..0] == "";
  }

  // ---------------------------------------------------------------------
  // The line scanner of `extract_transactions`
  // ---------------------------------------------------------------------

  /** One row of the table `extract_transactions` builds. */
  datatype Transaction = Transaction(date: Option<Date>, description: string, amount: real, bank: string)

  /** `re.match(r'^\d{2}/\d{2}', t)`: two digits, a slash, two digits at the start. */
  predicate StartsWithMonthDay(t: string) {
    |t| >= 5 && IsDigit(t[0]) && IsDigit(t[1]) && t[2] == '/' && IsDigit(t[3]) && IsDigit(t[4])
  }

  /** The last token with every `$` and `,` removed. */
  function AmountToken(parts: seq<string>): string
    requires parts != []
  {
    RemoveAll(RemoveAll(parts[|parts| - 1], '$'), ',')
  }

  /** The tokens between the date and the amount, joined by single spaces. */
  function Description(parts: seq<string>): string
    requires |parts| >= 2
  {
    Join(" ", parts[1..|parts| - 1])
  }

  /** The record one line yields, if any: the line must be non-blank, hold
      neither header text, start (once stripped) with MM/DD, have at least
      three tokens and end in a strict amount. The description is the middle
      tokens joined by single spaces, the date the first token with the
      statement year appended, through `_standardize_date`. */
  function ParseLine(line: string, year: nat): (r: Option<Transaction>)
    ensures r.Some? ==> r.value.bank == "Chase"
    ensures r.Some? ==> !Contains("ACCOUNT ACTIVITY", line) && !Contains("Date of", line)
    ensures r.Some? ==> StartsWithMonthDay(Strip(line)) && |Words(Strip(line))| >= 3
    ensures r.Some? ==> ParseFloat(AmountToken(Words(Strip(line)))) == Some(r.value.amount)
  {
    var t := Strip(line);
    if t == [] || Contains("ACCOUNT ACTIVITY", line) || Contains("Date of", line) then None
    else if !StartsWithMonthDay(t) then None
    else
      var parts := Words(t);
      if |parts| < 3 then None
      else
        var amount := AmountToken(parts);
        if !IsStrictAmount(amount) then None
        else
          StrictAmountParses(amount);
          var date := parts[0] + "/" + NatToString(year);
          Some(Transaction(StandardizeDate(Str(date)), Description(parts),
                           ParseFloat(amount).value, "Chase"))
  }

  /** A line made of at least three words joined by single spaces, starting
      with MM/DD, free of both header texts and ending in a strict amount,
      yields the record of those words: the first word with the year as the
      date, the middle words as the description, the last as the amount. */
  lemma ParseLineOfWords(parts: seq<string>, year: nat)
    requires |parts| >= 3 && forall k :: 0 <= k < |parts| ==> IsWord(parts[k])
    requires StartsWithMonthDay(parts[0]) && IsStrictAmount(AmountToken(parts))
    requires !Contains("ACCOUNT ACTIVITY", Join(" ", parts)) && !Contains("Date of", Join(" ", parts))
    ensures ParseLine(Join(" ", parts), year).Some?
    ensures ParseLine(Join(" ", parts), year).value.date == StandardizeDate(Str(parts[0] + "/" + NatToString(year)))
    ensures ParseLine(Join(" ", parts), year).value.description == Description(parts)
    ensures Some(ParseLine(Join(" ", parts), year).value.amount) == ParseFloat(AmountToken(parts))
  {
    var line := Join(" ", parts);
    JoinEnds(" ", parts);
    assert !IsSpace(line[0]) by {
      assert line[0] == line[..|parts[0]|][0] == parts[0][0];
    }
    StripUnchanged(line);
    assert StartsWithMonthDay(line) by {
      forall k | 0 <= k < 5 ensures line[k] == parts[0][k] {
        assert line[k] == line[..|parts[0]|][k];
      }
    }
    WordsOfJoin(parts);
    ParseLineAccepts(line, year);
  }

  /** Conversely to the contract of `ParseLine`: a line passing every check
      yields the record built from its tokens. */
  lemma ParseLineAccepts(line: string, year: nat)
    requires !Contains("ACCOUNT ACTIVITY", line) && !Contains("Date of", line)
    requires StartsWithMonthDay(Strip(line)) && |Words(Strip(line))| >= 3
    requires IsStrictAmount(AmountToken(Words(Strip(line))))
    ensures var ws := Words(Strip(line));
            ParseLine(line, year).Some?
            && ParseLine(line, year).value.date == StandardizeDate(Str(ws[0] + "/" + NatToString(year)))
            && ParseLine(line, year).value.description == Description(ws)
            && Some(ParseLine(line, year).value.amount) == ParseFloat(AmountToken(ws))
  {
    var t := Strip(line);
    var ws := Words(t);
    assert t != [];
    var amount := AmountToken(ws);
    StrictAmountParses(amount);
    var v := ParseFloat(amount).value;
    assert ParseLine(line, year)
           == Some(Transaction(StandardizeDate(Str(ws[0] + "/" + NatToString(year))), Description(ws), v, "Chase"));
  }

  /** A statement line with a date, two description words and an amount. */
  lemma CoffeeLineExample()
    ensures ParseLine("12/15 STARBUCKS COFFEE 4.75", 2024)
            == Some(Transaction(Some(Date(2024, 12, 15)), "STARBUCKS COFFEE", 4.75, "Chase"))
  {
    CoffeeLine("12/15 STARBUCKS COFFEE 4.75");
  }

  lemma CoffeeLine(line: string)
    requires line == "12/15 STARBUCKS COFFEE 4.75"
    ensures ParseLine(line, 2024) == Some(Transaction(Some(Date(2024, 12, 15)), "STARBUCKS COFFEE", 4.75, "Chase"))
  {
    var d, w1, w2, a := "12/15", "STARBUCKS", "COFFEE", "4.75";
    CoffeeWords(line, d, w1, w2, a);
    CoffeeParts(line, d, w1, w2, a);
  }

  lemma CoffeeWords(line: string, d: string, w1: string, w2: string, a: string)
    requires line == "12/15 STARBUCKS COFFEE 4.75"
    requires d == "12/15" && w1 == "STARBUCKS" && w2 == "COFFEE" && a == "4.75"
    ensures line == d + " " + (w1 + " " + (w2 + " " + a))
    ensures w1 + " " + w2 == "STARBUCKS COFFEE"
  {
  }

  lemma CoffeeParts(line: string, d: string, w1: string, w2: string, a: string)
    requires d == "12/15" && w1 == "STARBUCKS" && w2 == "COFFEE" && a == "4.75"
    requires line == d + " " + (w1 + " " + (w2 + " " + a))
    ensures ParseLine(line, 2024) == Some(Transaction(Some(Date(2024, 12, 15)), w1 + " " + w2, 4.75, "Chase"))
  {
    var parts := [d, w1, w2, a];
    assert StartsWithMonthDay(parts[0]);
    CoffeeJoin(line, parts);
    CoffeeTokens(parts);
    JoinAvoids(" ", parts, 'N');
    JoinAvoids(" ", parts, 'D');
    NoActivityHeader(line);
    NoDateHeader(line);
    assert '$' !in a && ',' !in a;
    RemoveAbsent(a, '$');
    RemoveAbsent(a, ',');
    CoffeeAmount(a);
    YearText();
    CoffeeDate(d + "/" + NatToString(2024), d);
    ParseLineOfWords(parts, 2024);
  }

  lemma CoffeeJoin(line: string, parts: seq<string>)
    requires |parts| == 4
    requires line == parts[0] + " " + (parts[1] + " " + (parts[2] + " " + parts[3]))
    ensures line == Join(" ", parts)
    ensures Description(parts) == parts[1] + " " + parts[2]
    ensures AmountToken(parts) == RemoveAll(RemoveAll(parts[3], '$'), ',')
  {
    var d, w1, w2, a := parts[0], parts[1], parts[2], parts[3];
    JoinCons(" ", w2, [a]);
    assert [w2, a] == [w2] + [a];
    JoinCons(" ", w1, [w2, a]);
    assert [w1, w2, a] == [w1] + [w2, a];
    JoinCons(" ", d, [w1, w2, a]);
    assert parts == [d] + [w1, w2, a];
    assert parts[1..|parts| - 1] == [w1] + [w2];
    JoinCons(" ", w1, [w2]);
  }

  lemma CoffeeTokens(parts: seq<string>)
    requires parts == ["12/15", "STARBUCKS", "COFFEE", "4.75"]
    ensures forall k :: 0 <= k < |parts| ==> IsWord(parts[k]) && 'N' !in parts[k] && 'D' !in parts[k]
  {
    forall k | 0 <= k < |parts| ensures IsWord(parts[k]) && 'N' !in parts[k] && 'D' !in parts[k] {
      if k == 0 {
      } else if k == 1 {
      } else if k == 2 {
      } else {
      }
    }
  }

  /** A line without an 'N' never holds "ACCOUNT ACTIVITY". */
  lemma NoActivityHeader(line: string)
    requires 'N' !in line
    ensures !Contains("ACCOUNT ACTIVITY", line)
  {
    var p := "ACCOUNT ACTIVITY";
    assert p[5] == 'N';
    ForeignCharNoMatch(p, line, 5);
  }

  /** A line without a 'D' never holds "Date of". */
  lemma NoDateHeader(line: string)
    requires 'D' !in line
    ensures !Contains("Date of", line)
  {
    var p := "Date of";
    assert p[0] == 'D';
    ForeignCharNoMatch(p, line, 0);
  }

  lemma CoffeeAmount(a: string)
    requires a == "4.75"
    ensures IsStrictAmount(a) && ParseFloat(a) == Some(4.75)
  {
    CoffeeAmountParses(a);
    CoffeeDecimal("4", "75");
  }

  lemma CoffeeAmountParses(a: string)
    requires a == "4.75"
    ensures IsStrictAmount(a) && ParseFloat(a) == Some(DecimalValue("4", "75"))
  {
    assert IsStrictAmount(a);
    StrictAmountParses(a);
    assert a[..1] == "4" && a[2..] == "75";
  }

  lemma CoffeeDecimal(i: string, f: string)
    requires i == "4" && f == "75"
    ensures IsDigits(i) && IsDigits(f) && DecimalValue(i, f) == 4.75
  {
    assert DigitsValue(i) == 4 by {
      assert i[..0] == "";
    }
    assert DigitsValue(f) == 75 by {
      assert f[..1] == "7" && "7"[..0] == "";
    }
    assert Pow10(2) == 100;
  }

  lemma YearText()
    ensures NatToString(2024) == "2024"
  {
    assert NatToString(2) == "2";
    assert NatToString(20) == NatToString(2) + [DigitChar(0)];
    assert NatToString(202) == NatToString(20) + [DigitChar(2)];
    assert NatToString(2024) == NatToString(202) + [DigitChar(4)];
  }

  lemma CoffeeDate(s: string, d: string)
    requires d == "12/15" && s == d + "/" + "2024"
    ensures StandardizeDate(Str(s)) == Some(Date(2024, 12, 15))
  {
    var a, b, c := "12", "15", "2024";
    assert d == a + ['/'] + b;
    CoffeeStrptime(s, a, b, c);
    StandardizeDigitLed(s);
  }

  lemma CoffeeStrptime(s: string, a: string, b: string, c: string)
    requires a == "12" && b == "15" && c == "2024"
    requires s == a + ['/'] + b + ['/'] + c
    ensures Strptime(s, MonthDayYear) == Some(Date(2024, 12, 15))
  {
    CoffeeFields(a, b, c);
    MonthDayYearOf(s, a, b, c, 12, 15, 2024);
  }

  lemma CoffeeFields(a: string, b: string, c: string)
    requires a == "12" && b == "15" && c == "2024"
    ensures IsToken(MonthNumber, a) && IsToken(DayNumber, b) && IsToken(FullYear, c) && b[0] != ' '
    ensures DigitsValue(a) == 12 && DigitsValue(b) == 15 && DigitsValue(c) == 2024
  {
    assert DigitsValue(a) == 12 by {
      assert a[..1] == "1" && "1"[..0] == "";
    }
    assert DigitsValue(b) == 15 by {
      assert b[..1] == "1" && "1"[..0] == "";
    }
    assert DigitsValue(c) == 2024 by {
      assert c[..3] == "202" && "202"[..2] == "20" && "20"[..1] == "2" && "2"[..0] == "";
    }
  }

  /** A line whose first token is not a date yields nothing. */
  lemma TotalLineExample()
    ensures ParseLine("TOTAL DUE 500.00", 2024) == None
  {
    TotalLine("TOTAL DUE 500.00");
  }

  lemma TotalLine(line: string)
    requires line == "TOTAL DUE 500.00"
    ensures ParseLine(line, 2024) == None
  {
    StripUnchanged(line);
  }

  /** The record a line yields, as the rows it appends. */
  function Found(r: Option<Transaction>): (rows: seq<Transaction>)
    ensures |rows| <= 1
  {
    match r
    case Some(t) => [t]
    case None => []
  }

  /** The records of a run of lines, in line order. */
  function ScanLines(lines: seq<string>, year: nat): (rows: seq<Transaction>)
    ensures |rows| <= |lines|
  {
    if lines == [] then []
    else ScanLines(lines[..|lines| - 1], year) + Found(ParseLine(lines[|lines| - 1], year))
  }

  /** The records of a run of pages, page after page, line after line. */
  function ScanPages(pages: seq<string>, year: nat): seq<Transaction> {
    if pages == [] then []
    else ScanPages(pages[..|pages| - 1], year) + ScanLines(Split(pages[|pages| - 1], '\n'), year)
  }

  /** The number of lines `text.split('\n')` gives over all pages. */
  function LineCount(pages: seq<string>): nat {
    if pages == [] then 0 else LineCount(pages[..|pages| - 1]) + |Split(pages[|pages| - 1], '\n')|
  }

  /** At most one record per line. */
  lemma {:induction false} ScanPagesBound(pages: seq<string>, year: nat)
    ensures |ScanPages(pages, year)| <= LineCount(pages)
  {
    if pages != [] {
      ScanPagesBound(pages[..|pages| - 1], year);
    }
  }

  lemma ScanLinesAppend(lines: seq<string>, line: string, year: nat)
    ensures ScanLines(lines + [line], year) == ScanLines(lines, year) + Found(ParseLine(line, year))
  {
    assert (lines + [line])[..|lines|] == lines;
  }

  lemma ScanLinesStep(lines: seq<string>, j: nat, year: nat)
    requires j < |lines|
    ensures ScanLines(lines[..j + 1], year) == ScanLines(lines[..j], year) + Found(ParseLine(lines[j], year))
  {
    assert lines[..j + 1] == lines[..j] + [lines[j]];
    ScanLinesAppend(lines[..j], lines[j], year);
  }

  lemma ScanPagesAppend(pages: seq<string>, page: string, year: nat)
    ensures ScanPages(pages + [page], year) == ScanPages(pages, year) + ScanLines(Split(page, '\n'), year)
  {
    assert (pages + [page])[..|pages|] == pages;
  }

  // ---------------------------------------------------------------------
  // Sorting by date; a missing date sorts last
  // ---------------------------------------------------------------------

  /** The order `sort_values('date')` uses: dates ascending, NaT last. */
  predicate KeyLe(a: Option<Date>, b: Option<Date>) {
    b.None? || (a.Some? && DateLe(a.value, b.value))
  }

  predicate SortedByDate(rows: seq<Transaction>) {
    forall i, j :: 0 <= i < j < |rows| ==> KeyLe(rows[i].date, rows[j].date)
  }

  /** When `x` does not come before the head of sorted rows, the head comes
      before every row of the tail with `x` added. */
  lemma HeadBelowInserted(x: Transaction, rows: seq<Transaction>, tail: seq<Transaction>)
    requires rows != [] && SortedByDate(rows) && !KeyLe(x.date, rows[0].date)
    requires multiset(tail) == multiset(rows[1..]) + multiset{x}
    ensures forall y :: y in tail ==> KeyLe(rows[0].date, y.date)
  {
    forall y | y in tail ensures KeyLe(rows[0].date, y.date) {
      assert y in multiset(tail);
      if y != x {
        assert y in multiset(rows[1..]);
        var k :| 0 <= k < |rows[1..]| && rows[1..][k] == y;
        assert rows[k + 1] == y;
      }
    }
  }

  /** `x` placed before the first row it does not come after. */
  function Insert(x: Transaction, rows: seq<Transaction>): (r: seq<Transaction>)
    requires SortedByDate(rows)
    ensures SortedByDate(r)
    ensures multiset(r) == multiset(rows) + multiset{x}
  {
    if rows == [] then [x]
    else if KeyLe(x.date, rows[0].date) then
      var r := [x] + rows;
      assert forall j :: 0 < j < |r| ==> r[j] == rows[j - 1];
      r
    else
      var tail := Insert(x, rows[1..]);
      assert rows == [rows[0]] + rows[1..];
      HeadBelowInserted(x, rows, tail);
      var r := [rows[0]] + tail;
      assert forall j :: 0 < j < |r| ==> r[j] == tail[j - 1] && r[j] in tail;
      r
  }

  /** The rows in date order: a permutation that is sorted. */
  function SortByDate(rows: seq<Transaction>): (r: seq<Transaction>)
    ensures SortedByDate(r)
    ensures multiset(r) == multiset(rows)
  {
    if rows == [] then []
    else
      assert rows == rows[..|rows| - 1] + [rows[|rows| - 1]];
      Insert(rows[|rows| - 1], SortByDate(rows[..|rows| - 1]))
  }

  /** The text of every page, or None when some page has none. */
  function PageTexts(pages: seq<Option<string>>): (r: Option<seq<string>>)
    ensures r.Some? <==> forall k :: 0 <= k < |pages| ==> pages[k].Some?
    ensures r.Some? ==> |r.value| == |pages| && forall k :: 0 <= k < |pages| ==> r.value[k] == pages[k].value
  {
    if pages == [] then Some([])
    else
      match PageTexts(pages[..|pages| - 1])
      case None => None
      case Some(texts) =>
        match pages[|pages| - 1]
        case None => None
        case Some(text) => Some(texts + [text])
  }

  /** The inner loop of `extract_transactions` over the lines of one page's
      text: each line offered to the line parser in order. */
  method ScanPage(lines: seq<string>, year: nat) returns (rows: seq<Transaction>)
    ensures rows == ScanLines(lines, year)
  {
    rows := [];
    for j := 0 to |lines|
      invariant rows == ScanLines(lines[..j], year)
    {
      ScanLinesStep(lines, j, year);
      rows := rows + Found(ParseLine(lines[j], year));
    }
    assert lines[..|lines|] == lines;
  }

  lemma PageTextsStep(pages: seq<Option<string>>, i: nat, texts: seq<string>)
    requires i < |pages| && pages[i].Some?
    requires PageTexts(pages[..i]) == Some(texts)
    ensures PageTexts(pages[..i + 1]) == Some(texts + [pages[i].value])
  {
    assert pages[..i + 1][..i] == pages[..i];
  }

  /** `extract_transactions` as written: the year comes from line 53's call
      of the year extraction as coded, which keeps two digits of a
      four-digit closing year. */
  method ExtractTransactionsAsWritten(pages: seq<Option<string>>, currentYear: nat) returns (r: Result<seq<Transaction>, Exception>)
    ensures r.Ok? <==> PageTexts(pages).Some? && DatesConvert(ScanPages(PageTexts(pages).value, StatementYearAsWritten(pages, currentYear)))
    ensures r.Err? ==> r.error == if PageTexts(pages).None? then AttributeError else ValueError
    ensures r.Ok? ==> r.value == SortByDate(ScanPages(PageTexts(pages).value, StatementYearAsWritten(pages, currentYear)))
  {
    r := ScanStatement(pages, StatementYearAsWritten(pages, currentYear));
  }

  /** `extract_transactions` with the closing year read in full. */
  method ExtractTransactions(pages: seq<Option<string>>, currentYear: nat) returns (r: Result<seq<Transaction>, Exception>)
    ensures r.Ok? <==> PageTexts(pages).Some? && DatesConvert(ScanPages(PageTexts(pages).value, StatementYear(pages, currentYear)))
    ensures r.Err? ==> r.error == if PageTexts(pages).None? then AttributeError else ValueError
    ensures r.Ok? ==> r.value == SortByDate(ScanPages(PageTexts(pages).value, StatementYear(pages, currentYear)))
  {
    r := ScanStatement(pages, StatementYear(pages, currentYear));
  }

  /** Line 97's `pd.to_datetime` on the date column: a date outside pandas'
      nanosecond range raises OutOfBoundsDatetime, a ValueError, while a
      missing date becomes NaT. An empty table skips the conversion. */
  predicate DatesConvert(rows: seq<Transaction>) {
    forall i :: 0 <= i < |rows| && rows[i].date.Some? ==>
      DateLe(FirstTimestampDay, rows[i].date.value) && DateLe(rows[i].date.value, LastTimestampDay)
  }

  /** The loops of `extract_transactions` for a given year: every line of
      every page is scanned, the dates are converted and the records are
      sorted by date. A page without text raises (AttributeError on `None`)
      and so does a date outside pandas' range (ValueError); `read_statement`
      turns either into an empty table. */
  method ScanStatement(pages: seq<Option<string>>, year: nat) returns (r: Result<seq<Transaction>, Exception>)
    ensures r.Ok? <==> PageTexts(pages).Some? && DatesConvert(ScanPages(PageTexts(pages).value, year))
    ensures r.Err? ==> r.error == if PageTexts(pages).None? then AttributeError else ValueError
    ensures r.Ok? ==> r.value == SortByDate(ScanPages(PageTexts(pages).value, year))
  {
    var transactions: seq<Transaction> := [];
    var texts: seq<string> := [];
    var i := 0;
    while i < |pages|
      invariant 0 <= i <= |pages|
      invariant PageTexts(pages[..i]) == Some(texts)
      invariant transactions == ScanPages(texts, year)
    {
      if pages[i].None? {
        assert !(forall k :: 0 <= k < |pages| ==> pages[k].Some?);
        return Err(AttributeError);
      }
      var text := pages[i].value;
      var rows := ScanPage(Split(text, '\n'), year);
      transactions := transactions + rows;
      ScanPagesAppend(texts, text, year);
      PageTextsStep(pages, i, texts);
      texts := texts + [text];
      i := i + 1;
    }
    assert pages[..i] == pages;
    if !DatesConvert(transactions) {
      return Err(ValueError);
    }
    r := Ok(SortByDate(transactions));
  }

  /** What extraction returns is in date order, holds exactly the records the
      lines yield, and has at most one record per line. */
  lemma ExtractedRows(pages: seq<string>, year: nat)
    ensures SortedByDate(SortByDate(ScanPages(pages, year)))
    ensures multiset(SortByDate(ScanPages(pages, year))) == multiset(ScanPages(pages, year))
    ensures |SortByDate(ScanPages(pages, year))| <= LineCount(pages)
  {
    ScanPagesBound(pages, year);
    var rows := ScanPages(pages, year);
    assert |multiset(SortByDate(rows))| == |multiset(rows)|;
  }
}
