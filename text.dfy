/** String primitives that the JavaScript code gets from regular expressions and
    `String.prototype`: `replace(/\D/g, '')`, `trim()`, `includes`,
    `startsWith`, `toUpperCase`/`toLowerCase` and number-to-text conversion.
    Strings are sequences of characters. */
module Text {
  import opened Maybe

  // ---------------------------------------------------------------------------
  // Digits: the class `\d` and the stripping `s.replace(/\D/g, '')`

  predicate IsDigit(c: char) {
    '0' <= c <= '9'
  }

  predicate AllDigits(s: string) {
    forall i :: 0 <= i < |s| ==> IsDigit(s[i])
  }

  /** `s.replace(/\D/g, '')`: the digits of `s`, in order. */
  function Digits(s: string): (r: string)
    ensures AllDigits(r)
    ensures |r| <= |s|
  {
    if s == [] then []
    else (if IsDigit(s[0]) then [s[0]] else []) + Digits(s[1..])
  }

  /** Stripping leaves a string made only of digits unchanged. */
  lemma {:induction false} DigitsOfAllDigits(s: string)
    requires AllDigits(s)
    ensures Digits(s) == s
  {
    if s != [] {
      DigitsOfAllDigits(s[1..]);
    }
  }

  /** One step of stripping: the first character is kept exactly when it is a
      digit. */
  lemma DigitsCons(s: string)
    requires s != []
    ensures Digits(s) == (if IsDigit(s[0]) then [s[0]] else []) + Digits(s[1..])
  {
  }

  /** Stripping distributes over concatenation. */
  lemma {:induction false} DigitsConcat(a: string, b: string)
    ensures Digits(a + b) == Digits(a) + Digits(b)
  {
    if a == [] {
      assert a + b == b;
    } else {
      var h: string := if IsDigit(a[0]) then [a[0]] else [];
      DigitsConcat(a[1..], b);
      assert (a + b)[0] == a[0] && (a + b)[1..] == a[1..] + b;
      DigitsCons(a + b);
      DigitsCons(a);
      assert h + (Digits(a[1..]) + Digits(b)) == (h + Digits(a[1..])) + Digits(b);
    }
  }

  /** A separator without digits disappears when stripping `x + sep + y`. */
  lemma DigitsJoin(x: string, sep: string, y: string)
    requires Digits(sep) == []
    ensures Digits(x + sep + y) == Digits(x) + Digits(y)
  {
    DigitsConcat(x, sep);
    DigitsConcat(x + sep, y);
  }

  /** Stripping twice is stripping once. */
  lemma DigitsIdempotent(s: string)
    ensures Digits(Digits(s)) == Digits(s)
  {
    DigitsOfAllDigits(Digits(s));
  }

  /** A string with no digit strips to the empty string. */
  lemma {:induction false} DigitsOfNoDigits(s: string)
    requires forall i :: 0 <= i < |s| ==> !IsDigit(s[i])
    ensures Digits(s) == ""
  {
    if s != [] {
      DigitsOfNoDigits(s[1..]);
    }
  }

  /** The value 0..9 of a digit character (`parseInt` of a one-digit string). */
  function DigitValue(c: char): (v: nat)
    requires IsDigit(c)
    ensures v < 10
  {
    c as int - '0' as int
  }

  /** The digit character of a value 0..9. */
  function DigitChar(v: nat): (c: char)
    requires v < 10
    ensures IsDigit(c) && DigitValue(c) == v
  {
    (v + '0' as int) as char
  }

  // ---------------------------------------------------------------------------
  // Whitespace: the class `\s` and `String.prototype.trim`

  /** ECMAScript WhiteSpace and LineTerminator code points, which both `\s`
      and `trim()` use. */
  predicate IsWhitespace(c: char) {
    || c == ' ' || c == '\t' || c == '\n' || c == '\U{B}' || c == '\U{C}' || c == '\r'
    || c == '\U{A0}' || c == '\U{1680}' || ('\U{2000}' <= c <= '\U{200A}')
    || c == '\U{2028}' || c == '\U{2029}' || c == '\U{202F}' || c == '\U{205F}'
    || c == '\U{3000}' || c == '\U{FEFF}'
  }

  predicate Blank(s: string) {
    forall i :: 0 <= i < |s| ==> IsWhitespace(s[i])
  }

  predicate NoWhitespace(s: string) {
    forall i :: 0 <= i < |s| ==> !IsWhitespace(s[i])
  }

  /** A whitespace character in front of a blank string keeps it blank. */
  lemma BlankCons(c: char, w: string)
    requires IsWhitespace(c) && Blank(w)
    ensures Blank([c] + w)
  {
  }

  /** Drops the leading whitespace: what is removed is whitespace and what is
      left does not start with whitespace. */
  function TrimStart(s: string): (r: string)
    ensures |r| <= |s| && r == s[|s| - |r|..]
    ensures Blank(s[..|s| - |r|])
    ensures r != [] ==> !IsWhitespace(r[0])
  {
    if s != [] && IsWhitespace(s[0]) then
      var t := TrimStart(s[1..]);
      var w := s[1..][..|s| - 1 - |t|];
      assert s[..|s| - |t|] == [s[0]] + w;
      BlankCons(s[0], w);
      t
    else
      s
  }

  /** Drops the trailing whitespace. */
  function TrimEnd(s: string): (r: string)
    ensures |r| <= |s| && r == s[..|r|]
    ensures Blank(s[|r|..])
    ensures r != [] ==> !IsWhitespace(r[|r| - 1])
  {
    if s != [] && IsWhitespace(s[|s| - 1]) then
      var t := TrimEnd(s[..|s| - 1]);
      assert s[|t|..] == s[..|s| - 1][|t|..] + [s[|s| - 1]];
      t
    else
      s
  }

  /** `s.trim()`. */
  function Trim(s: string): (r: string)
    ensures |r| <= |s|
    ensures r != [] ==> !IsWhitespace(r[0]) && !IsWhitespace(r[|r| - 1])
  {
    var t := TrimStart(s);
    var r := TrimEnd(t);
    assert r != [] ==> r[0] == t[0];
    r
  }

  /** `!s.trim()` holds exactly when every character of `s` is whitespace. */
  lemma TrimEmptyIffBlank(s: string)
    ensures Trim(s) == "" <==> Blank(s)
  {
    var t := TrimStart(s);
    var r := TrimEnd(t);
    if r == "" {
      assert Blank(t[|r|..]);
      assert t == [];
      assert s[..|s| - |t|] == s;
    } else {
      var k := |s| - |t|;
      assert t[0] == r[0];
      assert s[k] == t[0];
    }
  }

  // ---------------------------------------------------------------------------
  // Searching

  predicate StartsWith(s: string, prefix: string) {
    |prefix| <= |s| && s[..|prefix|] == prefix
  }

  /** `s.includes(pattern)`. */
  predicate Contains(s: string, pattern: string) {
    exists i :: 0 <= i <= |s| && StartsWith(s[i..], pattern)
  }

  /** The index of the first occurrence of `c` (`s.indexOf(c)`, with -1 as None). */
  function Find(s: string, c: char): (r: Option<nat>)
    ensures r.None? <==> c !in s
    ensures r.Some? ==> r.value < |s| && s[r.value] == c && c !in s[..r.value]
  {
    if s == [] then None
    else if s[0] == c then Some(0)
    else
      match Find(s[1..], c)
      case None => None
      case Some(k) =>
        assert s[..k + 1] == [s[0]] + s[1..][..k];
        Some(k + 1)
  }

  /** `Find` gives the first occurrence. */
  lemma FindFirst(s: string, c: char, i: nat)
    requires i < |s| && s[i] == c && c !in s[..i]
    ensures Find(s, c) == Some(i)
  {
    var r := Find(s, c);
    assert s[..i + 1][i] == c;
  }

  // ---------------------------------------------------------------------------
  // Case mapping (ASCII letters)

  function UpperChar(c: char): char {
    if 'a' <= c <= 'z' then (c as int - 32) as char else c
  }

  function LowerChar(c: char): char {
    if 'A' <= c <= 'Z' then (c as int + 32) as char else c
  }

  /** `s.toUpperCase()` on ASCII letters. */
  function ToUpper(s: string): (r: string)
    ensures |r| == |s|
    ensures forall i :: 0 <= i < |s| ==> r[i] == UpperChar(s[i])
  {
    seq(|s|, i requires 0 <= i < |s| => UpperChar(s[i]))
  }

  /** `s.toLowerCase()` on ASCII letters. */
  function ToLower(s: string): (r: string)
    ensures |r| == |s|
    ensures forall i :: 0 <= i < |s| ==> r[i] == LowerChar(s[i])
  {
    seq(|s|, i requires 0 <= i < |s| => LowerChar(s[i]))
  }

  // ---------------------------------------------------------------------------
  // Decimal text of integers (`n.toString()`)

  /** The decimal text of a natural number, without leading zeros. */
  function NatToString(n: nat): (r: string)
    ensures |r| > 0 && AllDigits(r)
    ensures r[0] == '0' ==> n == 0
    decreases n
  {
    if n < 10 then [DigitChar(n)] else NatToString(n / 10) + [DigitChar(n % 10)]
  }

  /** The decimal text of an integer, with a leading '-' when negative. */
  function IntToString(i: int): (r: string)
    ensures |r| > 0
    ensures i >= 0 ==> AllDigits(r)
    ensures i < 0 ==> r[0] == '-'
  {
    if i < 0 then "-" + NatToString(-i) else NatToString(i)
  }

  /** The number a string of decimal digits denotes. */
  function ParseNat(s: string): nat
    requires AllDigits(s)
  {
    if s == [] then 0 else ParseNat(s[..|s| - 1]) * 10 + DigitValue(s[|s| - 1])
  }

  /** Reading back the decimal text gives the number again, so distinct
      numbers have distinct texts. */
  lemma {:induction false} ParseNatToString(n: nat)
    ensures ParseNat(NatToString(n)) == n
    decreases n
  {
    var s := NatToString(n);
    if n >= 10 {
      ParseNatToString(n / 10);
      assert s[..|s| - 1] == NatToString(n / 10);
    }
  }

  lemma IntToStringInjective(i: int, j: int)
    requires IntToString(i) == IntToString(j)
    ensures i == j
  {
    if i >= 0 && j >= 0 {
      ParseNatToString(i);
      ParseNatToString(j);
    } else if i < 0 && j < 0 {
      var a, b := NatToString(-i), NatToString(-j);
      assert IntToString(i)[1..] == a;
      assert IntToString(j)[1..] == b;
      ParseNatToString(-i);
      ParseNatToString(-j);
    }
  }
}
