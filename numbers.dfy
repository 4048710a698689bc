/** Exact decimal amounts. Python turns amount text into a binary float; this
    model keeps the exact decimal value as a `real` instead. */
module Numbers {
  import opened Wrappers
  import opened Text

  /** The value of the decimal numeral `intPart.fracPart`. */
  function DecimalValue(intPart: string, fracPart: string): real
    requires IsDigits(intPart) && IsDigits(fracPart)
  {
    DigitsValue(intPart) as real + DigitsValue(fracPart) as real / Pow10(|fracPart|) as real
  }

  /** An unsigned decimal numeral as `float` reads it: digits, optionally with a
      point and more digits, at least one digit in all ("7", "7.", ".5", "7.25"). */
  function ParseUnsigned(b: string): (r: Option<real>)
    ensures r.Some? ==> r.value >= 0.0
  {
    var k := IndexOf(b, '.');
    if k == |b| then
      if b != [] && IsDigits(b) then Some(DigitsValue(b) as real) else None
    else
      var ip, fp := b[..k], b[k + 1..];
      if IsDigits(ip) && IsDigits(fp) && (ip != [] || fp != []) then Some(DecimalValue(ip, fp)) else None
  }

  /** `float(s)` for plain decimal text: surrounding blanks ignored, an optional
      sign, then an unsigned numeral. Anything else is a ValueError, here None. */
  function ParseFloat(s: string): (r: Option<real>)
  {
    var t := Strip(s);
    if t == [] then None
    else
      var body := if t[0] == '-' || t[0] == '+' then t[1..] else t;
      match ParseUnsigned(body)
      case None => None
      case Some(v) => Some(if t[0] == '-' then -v else v)
  }

  /** The regular expression `^-?\d+\.\d{2}$`: an optional minus, at least one
      digit, a point and exactly two digits. */
  predicate IsStrictAmount(s: string) {
    var u := if s != [] && s[0] == '-' then s[1..] else s;
    |u| >= 4 && u[|u| - 3] == '.' && IsDigits(u[..|u| - 3]) && IsDigits(u[|u| - 2..])
  }

  /** Text that passes the strict amount pattern always converts with `float`,
      to its signed decimal value: the integer part plus hundredths. */
  lemma StrictAmountParses(s: string)
    requires IsStrictAmount(s)
    ensures var u := if s[0] == '-' then s[1..] else s;
            var v := DecimalValue(u[..|u| - 3], u[|u| - 2..]);
            ParseFloat(s) == Some(if s[0] == '-' then -v else v)
  {
    var u := if s[0] == '-' then s[1..] else s;
    assert s[|s| - 1] == u[|u| - 1];
    UnsignedStrictParses(u);
    StripUnchanged(s);
    assert s[0] != '+';
  }

  /** The unsigned part of a strict amount reads as its integer part plus
      hundredths. */
  lemma UnsignedStrictParses(u: string)
    requires |u| >= 4 && u[|u| - 3] == '.' && IsDigits(u[..|u| - 3]) && IsDigits(u[|u| - 2..])
    ensures IsDigit(u[0]) && IsDigit(u[|u| - 1])
    ensures ParseUnsigned(u) == Some(DecimalValue(u[..|u| - 3], u[|u| - 2..]))
  {
    assert u[0] == u[..|u| - 3][0];
    assert u[|u| - 1] == u[|u| - 2..][1];
    forall j | 0 <= j < |u| - 3 ensures u[j] != '.' {
      assert u[j] == u[..|u| - 3][j];
    }
    IndexOfAt(u, '.', |u| - 3);
    assert u[|u| - 3 + 1..] == u[|u| - 2..];
  }

  lemma DecimalValueExample()
    ensures DecimalValue("1234", "56") == 1234.56
  {
    DigitsValueOf1234("1234");
    DigitsValueOf56("56");
    assert Pow10(2) == 100;
  }

  lemma DigitsValueOf1234(s: string)
    requires s == "1234"
    ensures IsDigits(s) && DigitsValue(s) == 1234
  {
    var a, b, c := s[..1], s[..2], s[..3];
    assert a[..0] == [] && a[0] == '1';
    assert DigitsValue(a) == 1;
    assert b[..1] == a && b[1] == '2';
    assert DigitsValue(b) == 12;
    assert c[..2] == b && c[2] == '3';
    assert DigitsValue(c) == 123;
    assert s[..3] == c && s[3] == '4';
  }

  lemma DigitsValueOf56(s: string)
    requires s == "56"
    ensures IsDigits(s) && DigitsValue(s) == 56
  {
    var a := s[..1];
    assert a[..0] == [] && a[0] == '5';
    assert DigitsValue(a) == 5;
    assert s[..1] == a && s[1] == '6';
  }

  lemma StrictAmountExampleParses(s: string)
    requires s == "1234.56"
    ensures IsStrictAmount(s) && ParseFloat(s) == Some(DecimalValue("1234", "56"))
  {
    assert IsStrictAmount(s);
    StrictAmountParses(s);
    assert s[..4] == "1234" && s[5..] == "56";
  }

  lemma RemoveDollarExample()
    ensures RemoveAll("$1,234.56", '$') == "1,234.56"
  {
    var x, y := "$", "1,234.56";
    assert "$1,234.56" == x + y;
    RemoveConcat(x, y, '$');
    RemoveAbsent(y, '$');
  }

  lemma RemoveCommaExample()
    ensures RemoveAll("1,234.56", ',') == "1234.56"
  {
    RemoveCommaOf("1,234.56", "1,", "234.56");
  }

  lemma RemoveCommaOf(s: string, x: string, y: string)
    requires s == "1,234.56" && x == "1," && y == "234.56"
    ensures RemoveAll(s, ',') == "1" + y
  {
    assert s == x + y;
    RemoveConcat(x, y, ',');
    RemoveAbsent(y, ',');
    RemoveCommaOfHead(x);
  }

  lemma RemoveCommaOfHead(x: string)
    requires x == "1,"
    ensures RemoveAll(x, ',') == "1"
  {
    assert x[1..] == ",";
    assert RemoveAll(x[1..], ',') == [];
  }

  /** "$1,234.56" loses its `$` and `,` and then reads as exactly 1234.56. */
  lemma StrictAmountExample()
    ensures RemoveAll(RemoveAll("$1,234.56", '$'), ',') == "1234.56"
    ensures IsStrictAmount("1234.56") && ParseFloat("1234.56") == Some(1234.56)
  {
    RemoveDollarExample();
    RemoveCommaExample();
    DecimalValueExample();
    StrictAmountExampleParses("1234.56");
  }
}
