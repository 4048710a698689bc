/** The Python string operations the pipeline relies on, over `seq<char>`:
    `str.isspace`, `str.isdigit`, `str.lower`, `str.strip`, `str.split()`,
    `str.join`, the `in` substring test, `str.replace(c, '')` and `str(n)`.
    Character classes are the ASCII part of Python's Unicode classes. */
module Text {

  /** Python's `str.isspace` on ASCII: space, \t \n \v \f \r and the
      separators \x1c-\x1f (which `str.split()` and `\s` also treat as blanks). */
  predicate IsSpace(c: char) {
    c == ' ' || ('\t' <= c <= '\r') || ('\U{1C}' <= c <= '\U{1F}')
  }

  predicate IsDigit(c: char) {
    '0' <= c <= '9'
  }

  predicate IsUpper(c: char) {
    'A' <= c <= 'Z'
  }

  function LowerChar(c: char): (r: char)
    ensures !IsUpper(r)
    ensures !IsUpper(c) ==> r == c
  {
    if IsUpper(c) then (c as int + 32) as char else c
  }

  /** `s.lower()`: every upper-case letter replaced by its lower-case form. */
  function Lower(s: string): (r: string)
    ensures |r| == |s|
    ensures forall i :: 0 <= i < |s| ==> r[i] == LowerChar(s[i])
  {
    seq(|s|, i requires 0 <= i < |s| => LowerChar(s[i]))
  }

  /** Lower-casing twice is lower-casing once. */
  lemma LowerIdempotent(s: string)
    ensures Lower(Lower(s)) == Lower(s)
  {
  }

  /** A string holding an upper-case letter is never the lower-cased form of anything. */
  lemma LowerHasNoUpper(s: string, k: string)
    requires exists i :: 0 <= i < |k| && IsUpper(k[i])
    ensures Lower(s) != k
  {
  }

  /** `s.lstrip()`: the longest suffix of `s` that does not start with a blank. */
  function StripLeft(s: string): (r: string)
    ensures |r| <= |s| && r == s[|s| - |r|..]
    ensures forall i :: 0 <= i < |s| - |r| ==> IsSpace(s[i])
    ensures r == [] || !IsSpace(r[0])
  {
    if s != [] && IsSpace(s[0]) then StripLeft(s[1..]) else s
  }

  /** `s.rstrip()`: the longest prefix of `s` that does not end with a blank. */
  function StripRight(s: string): (r: string)
    ensures |r| <= |s| && r == s[..|r|]
    ensures forall i :: |r| <= i < |s| ==> IsSpace(s[i])
    ensures r == [] || !IsSpace(r[|r| - 1])
  {
    if s != [] && IsSpace(s[|s| - 1]) then StripRight(s[..|s| - 1]) else s
  }

  /** `pattern` occurs in `s` starting at index `i`. */
  predicate OccursAt(pattern: string, s: string, i: int) {
    0 <= i <= |s| - |pattern| && s[i..i + |pattern|] == pattern
  }

  /** `s.strip()`: a block of `s` with no blank at either end, all blanks around it removed. */
  function Strip(s: string): (r: string)
    ensures r == [] || (!IsSpace(r[0]) && !IsSpace(r[|r| - 1]))
    ensures exists k :: OccursAt(r, s, k)
  {
    var t := StripLeft(s);
    var r := StripRight(t);
    var k := |s| - |t|;
    assert t == s[k..] && r == t[..|r|];
    assert OccursAt(r, s, k);
    r
  }

  /** Text with no blank at either end is its own `strip()`. */
  lemma StripUnchanged(s: string)
    requires s != [] && !IsSpace(s[0]) && !IsSpace(s[|s| - 1])
    ensures Strip(s) == s
  {
    assert StripLeft(s) == s;
    assert StripRight(s) == s;
  }

  /** The length of the leading run of non-blank characters. */
  function WordLength(s: string): (n: nat)
    ensures n <= |s|
    ensures forall i :: 0 <= i < n ==> !IsSpace(s[i])
    ensures n == |s| || IsSpace(s[n])
  {
    if s == [] || IsSpace(s[0]) then 0 else 1 + WordLength(s[1..])
  }

  /** A word of `str.split()`: non-empty and blank-free. */
  predicate IsWord(w: string) {
    w != [] && forall j :: 0 <= j < |w| ==> !IsSpace(w[j])
  }

  /** `s.split()` with no separator: the maximal runs of non-blank characters, in order. */
  function Words(s: string): seq<string>
    decreases |s|
  {
    var t := StripLeft(s);
    if t == [] then []
    else
      var n := WordLength(t);
      assert n > 0 by { assert !IsSpace(t[0]); }
      [t[..n]] + Words(t[n..])
  }

  /** Every part of `split()` is a word: non-empty and blank-free. */
  lemma {:induction false} WordsAreWords(s: string)
    ensures forall i :: 0 <= i < |Words(s)| ==> IsWord(Words(s)[i])
    decreases |s|
  {
    var t := StripLeft(s);
    if t != [] {
      var n := WordLength(t);
      assert !IsSpace(t[0]);
      WordsAreWords(t[n..]);
      assert IsWord(t[..n]);
    }
  }

  /** `sep.join(parts)`. */
  function Join(sep: string, parts: seq<string>): string {
    if parts == [] then []
    else if |parts| == 1 then parts[0]
    else parts[0] + sep + Join(sep, parts[1..])
  }

  /** Python's `pattern in s`: `pattern` occurs as a contiguous block of `s`. */
  function Contains(pattern: string, s: string): (r: bool)
    ensures r <==> exists i :: OccursAt(pattern, s, i)
    decreases |s|
  {
    if pattern <= s then
      assert OccursAt(pattern, s, 0);
      true
    else if s == [] then
      false
    else
      ContainsShift(pattern, s);
      Contains(pattern, s[1..])
  }

  /** An occurrence in `s` that is not at its start is an occurrence in `s[1..]`. */
  lemma ContainsShift(pattern: string, s: string)
    requires s != [] && !(pattern <= s)
    ensures (exists i :: OccursAt(pattern, s, i)) <==> (exists i :: OccursAt(pattern, s[1..], i))
  {
    if exists i :: OccursAt(pattern, s, i) {
      var i :| OccursAt(pattern, s, i);
      assert OccursAt(pattern, s, 0) ==> pattern <= s;
      assert OccursAt(pattern, s[1..], i - 1);
    }
    if exists i :: OccursAt(pattern, s[1..], i) {
      var i :| OccursAt(pattern, s[1..], i);
      assert OccursAt(pattern, s, i + 1);
    }
  }

  /** `s.replace(c, '')`: `s` with every occurrence of `c` removed, the rest in order. */
  function RemoveAll(s: string, c: char): (r: string)
    ensures c !in r
    ensures forall x :: x in r <==> x in s && x != c
    ensures |r| <= |s|
  {
    if s == [] then []
    else if s[0] == c then RemoveAll(s[1..], c)
    else [s[0]] + RemoveAll(s[1..], c)
  }

  /** Removing a character that does not occur changes nothing. */
  lemma {:induction false} RemoveAbsent(s: string, c: char)
    requires c !in s
    ensures RemoveAll(s, c) == s
  {
    if s != [] {
      RemoveAbsent(s[1..], c);
    }
  }

  /** Removal works piece by piece. */
  lemma {:induction false} RemoveConcat(a: string, b: string, c: char)
    ensures RemoveAll(a + b, c) == RemoveAll(a, c) + RemoveAll(b, c)
  {
    if a == [] {
      assert a + b == b;
    } else {
      assert (a + b)[1..] == a[1..] + b;
      RemoveConcat(a[1..], b, c);
    }
  }

  predicate IsDigits(s: string) {
    forall i :: 0 <= i < |s| ==> IsDigit(s[i])
  }

  /** `int(s)` for a string of decimal digits (the empty string reads as 0). */
  function DigitsValue(s: string): (n: nat)
    requires IsDigits(s)
  {
    if s == [] then 0 else 10 * DigitsValue(s[..|s| - 1]) + (s[|s| - 1] as int - '0' as int)
  }

  function DigitChar(d: nat): (c: char)
    requires d < 10
    ensures IsDigit(c) && c as int - '0' as int == d
  {
    ('0' as int + d) as char
  }

  /** `str(n)` for a natural number: its decimal digits, without leading zeros. */
  function NatToString(n: nat): (s: string)
    ensures IsDigits(s) && s != []
    ensures DigitsValue(s) == n
    ensures |s| > 1 ==> s[0] != '0'
  {
    if n < 10 then [DigitChar(n)]
    else
      var s := NatToString(n / 10) + [DigitChar(n % 10)];
      assert s[..|s| - 1] == NatToString(n / 10);
      s
  }

  function Pow10(k: nat): (p: nat)
    ensures p >= 1
  {
    if k == 0 then 1 else 10 * Pow10(k - 1)
  }

  /** `n` written with exactly `width` digits, zero-padded on the left, as the
      `%Y`, `%m`, `%d`, `%H`, `%M` and `%S` directives of `strftime` write a
      field that fits. */
  function PadDigits(n: nat, width: nat): (s: string)
    requires n < Pow10(width)
    ensures |s| == width && IsDigits(s)
    ensures DigitsValue(s) == n
  {
    if width == 0 then ""
    else
      var s := PadDigits(n / 10, width - 1) + [DigitChar(n % 10)];
      assert s[..|s| - 1] == PadDigits(n / 10, width - 1);
      s
  }

  /** A digit string without leading zeros has value at least 10^(length-1). */
  lemma {:induction false} DigitsValueBounds(s: string)
    requires IsDigits(s)
    ensures DigitsValue(s) < Pow10(|s|)
    ensures |s| > 0 && s[0] != '0' ==> DigitsValue(s) >= Pow10(|s| - 1)
  {
    if s != [] {
      var p := s[..|s| - 1];
      DigitsValueBounds(p);
      if |p| > 0 {
        assert p[0] == s[0];
      }
    }
  }

  /** `str(n)` has exactly four characters when, and only when, 1000 <= n <= 9999. */
  lemma NatToStringFourDigits(n: nat)
    ensures |NatToString(n)| == 4 <==> 1000 <= n <= 9999
  {
    var s := NatToString(n);
    DigitsValueBounds(s);
    if |s| <= 3 {
      PowMonotone(|s|, 3);
    }
    if |s| >= 5 {
      PowMonotone(4, |s| - 1);
    }
    assert Pow10(3) == 1000 && Pow10(4) == 10000;
  }

  lemma {:induction false} PowMonotone(i: nat, j: nat)
    requires i <= j
    ensures Pow10(i) <= Pow10(j)
    decreases j
  {
    if i < j {
      PowMonotone(i, j - 1);
    }
  }

  /** A pattern holding a character that `s` lacks does not occur in `s`. */
  lemma ForeignCharNoMatch(p: string, s: string, i: int)
    requires 0 <= i < |p| && p[i] !in s
    ensures !Contains(p, s)
  {
    forall k ensures !OccursAt(p, s, k) {
      if 0 <= k <= |s| - |p| {
        assert s[k..k + |p|][i] == s[k + i];
      }
    }
  }

  /** `s.split(sep)` for a one-character separator: the pieces between
      separators, possibly empty, always at least one. */
  function Split(s: string, sep: char): (parts: seq<string>)
    ensures |parts| >= 1
    ensures forall k :: 0 <= k < |parts| ==> sep !in parts[k]
    ensures Join([sep], parts) == s
    decreases |s|
  {
    var i := IndexOf(s, sep);
    if i == |s| then
      [s]
    else
      var rest := Split(s[i + 1..], sep);
      var parts := [s[..i]] + rest;
      assert parts[1..] == rest;
      assert s == s[..i] + [sep] + s[i + 1..];
      parts
  }

  /** The index of the first `c` in `s`, or `|s|` when there is none. */
  function IndexOf(s: string, c: char): (i: nat)
    ensures i <= |s|
    ensures forall j :: 0 <= j < i ==> s[j] != c
    ensures i < |s| ==> s[i] == c
  {
    if s == [] || s[0] == c then 0 else 1 + IndexOf(s[1..], c)
  }

  /** The first `c` of `s` is at `k` when `s[k] == c` and no earlier character is `c`. */
  lemma {:induction false} IndexOfAt(s: string, c: char, k: nat)
    requires k < |s| && s[k] == c
    requires forall j :: 0 <= j < k ==> s[j] != c
    ensures IndexOf(s, c) == k
  {
    if k > 0 {
      IndexOfAt(s[1..], c, k - 1);
    }
  }

  /** A leading blank does not change the words. */
  lemma WordsAfterBlank(c: char, s: string)
    requires IsSpace(c)
    ensures Words([c] + s) == Words(s)
  {
    assert ([c] + s)[1..] == s;
  }

  /** Words joined by single spaces split back into the same words. */
  lemma {:induction false} WordsOfJoin(ws: seq<string>)
    requires forall k :: 0 <= k < |ws| ==> IsWord(ws[k])
    ensures Words(Join(" ", ws)) == ws
  {
    if |ws| == 1 {
      WordsOfSingle(ws[0]);
    } else if |ws| > 1 {
      WordsOfJoin(ws[1..]);
      WordsOfJoinStep(ws[0], ws[1..]);
      assert [ws[0]] + ws[1..] == ws;
    }
  }

  lemma WordsOfSingle(w: string)
    requires IsWord(w)
    ensures Words(Join(" ", [w])) == [w]
  {
    WordsOfWord(w, []);
    assert w + [] == w;
    assert Words([]) == [];
  }

  lemma WordsOfJoinStep(w: string, rest: seq<string>)
    requires rest != [] && IsWord(w) && Words(Join(" ", rest)) == rest
    ensures Words(Join(" ", [w] + rest)) == [w] + rest
  {
    JoinCons(" ", w, rest);
    WordsOfSpaced(w, Join(" ", rest));
  }

  lemma WordsOfSpaced(w: string, rest: string)
    requires IsWord(w)
    ensures Words(w + " " + rest) == [w] + Words(rest)
  {
    var tail := [' '] + rest;
    assert w + " " + rest == w + tail;
    WordsOfWord(w, tail);
    WordsAfterBlank(' ', rest);
  }

  /** A word followed by nothing, or by a blank and more text, is the first word. */
  lemma WordsOfWord(w: string, tail: string)
    requires IsWord(w)
    requires tail == [] || IsSpace(tail[0])
    ensures Words(w + tail) == [w] + Words(tail)
  {
    var s := w + tail;
    assert StripLeft(s) == s;
    WordLengthOfWord(w, tail);
    assert s[..|w|] == w && s[|w|..] == tail;
  }

  /** A word followed by a blank (or nothing) is the leading run. */
  lemma WordLengthOfWord(w: string, tail: string)
    requires IsWord(w)
    requires tail == [] || IsSpace(tail[0])
    ensures WordLength(w + tail) == |w|
    decreases |w|
  {
    if |w| > 1 {
      assert (w + tail)[1..] == w[1..] + tail;
      WordLengthOfWord(w[1..], tail);
    } else {
      assert (w + tail)[1..] == tail;
    }
  }

  /** A join begins with its first part and ends with the last character of its last part. */
  lemma {:induction false} JoinEnds(sep: string, parts: seq<string>)
    requires parts != [] && parts[|parts| - 1] != []
    ensures |Join(sep, parts)| >= |parts[0]| && Join(sep, parts)[..|parts[0]|] == parts[0]
    ensures Join(sep, parts) != []
            && Join(sep, parts)[|Join(sep, parts)| - 1] == parts[|parts| - 1][|parts[|parts| - 1]| - 1]
  {
    if |parts| > 1 {
      JoinEnds(sep, parts[1..]);
      var rest := Join(sep, parts[1..]);
      assert Join(sep, parts) == parts[0] + sep + rest;
      assert (parts[0] + sep + rest)[..|parts[0]|] == parts[0];
    }
  }

  /** Joining one more part in front. */
  lemma JoinCons(sep: string, w: string, rest: seq<string>)
    requires rest != []
    ensures Join(sep, [w] + rest) == w + sep + Join(sep, rest)
  {
    assert ([w] + rest)[1..] == rest;
  }

  /** A character in neither the separator nor any part is not in the join. */
  lemma {:induction false} JoinAvoids(sep: string, parts: seq<string>, c: char)
    requires c !in sep && forall k :: 0 <= k < |parts| ==> c !in parts[k]
    ensures c !in Join(sep, parts)
  {
    if |parts| > 1 {
      JoinAvoids(sep, parts[1..], c);
    }
  }
}
