/** The shared helpers of the PDF statement readers: date and amount
    standardisation, and `read_statement`, which never lets an exception out. */
module PdfStatementReader {
  import opened Wrappers
  import opened Text
  import opened Numbers
  import opened Dates

  /** An argument that may or may not be a Python `str` (`isinstance(x, str)`). */
  datatype Value = Str(s: string) | NonStr

  /** The formats `_standardize_date` tries, in its order. */
  const DateFormats: seq<Format> := [MonthDayYear, MonthDayShortYear, YearMonthDay, DayMonthYearDashed, DayMonthYear]

  /** The date of the first format in `fmts` that parses `s`. */
  function FirstParse(s: string, fmts: seq<Format>): (r: Option<Date>)
    ensures r.None? <==> forall k :: 0 <= k < |fmts| ==> Strptime(s, fmts[k]).None?
    ensures r.Some? ==> exists k :: 0 <= k < |fmts| && Strptime(s, fmts[k]) == r
                                 && forall j :: 0 <= j < k ==> Strptime(s, fmts[j]).None?
  {
    if fmts == [] then None
    else
      match Strptime(s, fmts[0])
      case Some(d) =>
        assert Strptime(s, fmts[0]) == Some(d);
        Some(d)
      case None =>
        var r := FirstParse(s, fmts[1..]);
        assert forall k :: 1 <= k < |fmts| ==> fmts[k] == fmts[1..][k - 1];
        if r.Some? then
          var k :| 0 <= k < |fmts[1..]| && Strptime(s, fmts[1..][k]) == r
                   && forall j :: 0 <= j < k ==> Strptime(s, fmts[1..][j]).None?;
          assert Strptime(s, fmts[k + 1]) == r;
          r
        else
          r
  }

  /** `_standardize_date`: None for a non-string or any spelling of "nan";
      otherwise the stripped text through the formats in order, the first that
      succeeds giving the date (which is then written as YYYY-MM-DD). */
  function StandardizeDate(v: Value): (r: Option<Date>)
    ensures v.NonStr? || Lower(v.s) == "nan" ==> r.None?
    ensures r.Some? ==> ValidDate(r.value)
    ensures v.Str? && Lower(v.s) != "nan" ==> r == FirstParse(Strip(v.s), DateFormats)
  {
    match v
    case NonStr => None
    case Str(s) => if Lower(s) == "nan" then None else FirstParse(Strip(s), DateFormats)
  }

  /** Text that starts and ends with a digit is never "nan" and needs no
      stripping, so it goes straight to the formats. */
  lemma StandardizeDigitLed(s: string)
    requires s != [] && IsDigit(s[0]) && IsDigit(s[|s| - 1])
    ensures StandardizeDate(Str(s)) == FirstParse(s, DateFormats)
  {
    StripUnchanged(s);
    assert Lower(s)[0] == s[0];
  }

  /** "05/06/2024" always means the sixth of May: the month-first format is tried first. */
  lemma MonthFirstExample()
    ensures StandardizeDate(Str("05/06/2024")) == Some(Date(2024, 5, 6))
  {
    MonthFirstParse("05/06/2024");
  }

  lemma MonthFirstParse(s: string)
    requires s == "05/06/2024"
    ensures StandardizeDate(Str(s)) == Some(Date(2024, 5, 6))
  {
    MonthFirstStrptime(s);
    StandardizeDigitLed(s);
  }

  lemma MonthFirstStrptime(s: string)
    requires s == "05/06/2024"
    ensures Strptime(s, MonthDayYear) == Some(Date(2024, 5, 6))
  {
    var a, b, c := "05", "06", "2024";
    MonthFirstFields(s, a, b, c);
    MonthDayYearOf(s, a, b, c, 5, 6, 2024);
  }

  lemma MonthFirstFields(s: string, a: string, b: string, c: string)
    requires s == "05/06/2024" && a == "05" && b == "06" && c == "2024"
    ensures s == a + ['/'] + b + ['/'] + c
    ensures IsToken(MonthNumber, a) && IsToken(DayNumber, b) && IsToken(FullYear, c) && b[0] != ' '
    ensures DigitsValue(a) == 5 && DigitsValue(b) == 6 && DigitsValue(c) == 2024
  {
    assert DigitsValue(a) == 5 by {
      assert a[..1] == "0" && "0"[..0] == "";
    }
    assert DigitsValue(b) == 6 by {
      assert b[..1] == "0" && "0"[..0] == "";
    }
    assert DigitsValue(c) == 2024 by {
      assert c[..3] == "202" && "202"[..2] == "20" && "20"[..1] == "2" && "2"[..0] == "";
    }
  }

  /** The text `_standardize_amount` hands to `float`: stripped, every `$` and `,`
      removed, and a value wrapped in parentheses turned into a negative one. */
  function AmountText(s: string): string {
    var t := RemoveAll(RemoveAll(Strip(s), '$'), ',');
    if |t| >= 1 && t[0] == '(' && t[|t| - 1] == ')' then
      "-" + (if |t| >= 2 then t[1..|t| - 1] else "")
    else t
  }

  /** `_standardize_amount`: None for a non-string, "nan" in any case, or text
      `float` cannot read; otherwise the exact value. */
  function StandardizeAmount(v: Value): (r: Option<real>)
    ensures v.NonStr? || Lower(v.s) == "nan" ==> r.None?
    ensures v.Str? && Lower(v.s) != "nan" ==> r == ParseFloat(AmountText(v.s))
  {
    match v
    case NonStr => None
    case Str(s) => if Lower(s) == "nan" then None else ParseFloat(AmountText(s))
  }

  /** A plain unsigned numeral reads as itself, and wrapped in parentheses as its negation. */
  lemma ParenthesesNegate(u: string)
    requires ParseUnsigned(u).Some?
    ensures StandardizeAmount(Str(u)) == ParseUnsigned(u)
    ensures StandardizeAmount(Str("(" + u + ")")) == Some(-ParseUnsigned(u).value)
  {
    UnsignedNumeralShape(u);
    AmountTextOfNumeral(u);
    ParseSignedNumeral(u);
    assert Lower(u) != "nan" by {
      assert Lower(u)[0] == u[0];
    }
    assert Lower("(" + u + ")") != "nan" by {
      assert Lower("(" + u + ")")[0] == '(';
    }
  }

  lemma AmountTextOfNumeral(u: string)
    requires u != []
    requires forall i :: 0 <= i < |u| ==> IsDigit(u[i]) || u[i] == '.'
    ensures AmountText(u) == u
    ensures AmountText("(" + u + ")") == "-" + u
  {
    StripUnchanged(u);
    RemoveAbsent(u, '$');
    RemoveAbsent(u, ',');
    var w := "(" + u + ")";
    StripUnchanged(w);
    assert '$' !in w && ',' !in w;
    RemoveAbsent(w, '$');
    RemoveAbsent(w, ',');
    assert w[1..|w| - 1] == u;
  }

  lemma ParseSignedNumeral(u: string)
    requires ParseUnsigned(u).Some?
    requires forall i :: 0 <= i < |u| ==> IsDigit(u[i]) || u[i] == '.'
    ensures ParseFloat(u) == ParseUnsigned(u)
    ensures ParseFloat("-" + u) == Some(-ParseUnsigned(u).value)
  {
    assert u != [];
    StripUnchanged(u);
    var m := "-" + u;
    StripUnchanged(m);
    assert m[1..] == u;
  }

  /** A numeral `float` reads unsigned is made of digits and at most one point. */
  lemma UnsignedNumeralShape(u: string)
    requires ParseUnsigned(u).Some?
    ensures forall i :: 0 <= i < |u| ==> IsDigit(u[i]) || u[i] == '.'
  {
    var k := IndexOf(u, '.');
    if k < |u| {
      var ip, fp := u[..k], u[k + 1..];
      forall i | 0 <= i < |u| ensures IsDigit(u[i]) || u[i] == '.' {
        if i < k {
          assert u[i] == ip[i];
        } else if i > k {
          assert u[i] == fp[i - k - 1];
        }
      }
    }
  }

  /** `read_statement`: whatever goes wrong, the caller gets a table and never an
      exception. The reader's transactions come back only when the bank was
      recognised and extraction returned; every other path yields an empty table. */
  function ReadStatement<T>(identified: Result<bool, Exception>, extracted: Result<seq<T>, Exception>): (r: seq<T>)
    ensures r != [] ==> identified == Ok(true) && extracted == Ok(r)
    ensures identified == Ok(true) && extracted.Ok? ==> r == extracted.value
  {
    match identified
    case Ok(true) =>
      (match extracted
       case Ok(rows) => rows
       case Err(_) => [])
    case _ => []
  }
}
