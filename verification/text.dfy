/** String helpers with the meaning Foundation gives them: trimming
    `.whitespacesAndNewlines`, and the decimal rendering of an `Int` that
    string interpolation produces. */
module Text {
  import opened Results

  /** Membership in `CharacterSet.whitespacesAndNewlines`: the Unicode
      separators (general category Z*), U+0009 to U+000D and U+0085. */
  predicate IsWhitespace(c: char) {
    || '\t' <= c <= '\r'
    || c == ' '
    || c == '\U{85}'
    || c == '\U{A0}'
    || c == '\U{1680}'
    || '\U{2000}' <= c <= '\U{200A}'
    || c == '\U{2028}'
    || c == '\U{2029}'
    || c == '\U{202F}'
    || c == '\U{205F}'
    || c == '\U{3000}'
  }

  predicate AllWhitespace(s: string) {
    forall i :: 0 <= i < |s| ==> IsWhitespace(s[i])
  }

  /** `s.hasPrefix(prefix)`. */
  predicate StartsWith(s: string, prefix: string) {
    |prefix| <= |s| && s[..|prefix|] == prefix
  }

  /** Length of the whitespace run that starts `s`. */
  function LeadingWhitespace(s: string): (n: nat)
    ensures n <= |s|
    ensures forall i :: 0 <= i < n ==> IsWhitespace(s[i])
    ensures n < |s| ==> !IsWhitespace(s[n])
  {
    if |s| == 0 || !IsWhitespace(s[0]) then 0
    else 1 + LeadingWhitespace(s[1..])
  }

  /** Length of the whitespace run that ends `s`. */
  function TrailingWhitespace(s: string): (n: nat)
    ensures n <= |s|
    ensures forall i :: |s| - n <= i < |s| ==> IsWhitespace(s[i])
    ensures n < |s| ==> !IsWhitespace(s[|s| - n - 1])
  {
    if |s| == 0 || !IsWhitespace(s[|s| - 1]) then 0
    else 1 + TrailingWhitespace(s[..|s| - 1])
  }

  /** `s.trimmingCharacters(in: .whitespacesAndNewlines)`: the infix of `s`
      left after removing whitespace at both ends. */
  function Trim(s: string): (r: string)
    ensures |r| <= |s|
    ensures r == [] <==> AllWhitespace(s)
  {
    var a := LeadingWhitespace(s);
    if a == |s| then []
    else
      var b := TrailingWhitespace(s);
      assert a < |s| - b by {
        assert !IsWhitespace(s[a]);
      }
      s[a..|s| - b]
  }

  /** What `Trim` keeps: an infix of `s` that neither starts nor ends with
      whitespace, with only whitespace cut off on either side. */
  lemma TrimKeepsCore(s: string)
    requires !AllWhitespace(s)
    ensures var r, a := Trim(s), LeadingWhitespace(s);
      && r != []
      && !IsWhitespace(r[0]) && !IsWhitespace(r[|r| - 1])
      && a + |r| <= |s| && r == s[a..a + |r|]
      && (forall i :: 0 <= i < a ==> IsWhitespace(s[i]))
      && (forall i :: a + |r| <= i < |s| ==> IsWhitespace(s[i]))
  {
    var a, b := LeadingWhitespace(s), TrailingWhitespace(s);
    var r := Trim(s);
    assert r != [];
    assert a != |s|;
    assert r == s[a..|s| - b];
    assert a + |r| == |s| - b;
    assert r[0] == s[a];
    assert r[|r| - 1] == s[|s| - b - 1];
  }

  lemma {:induction false} TrimIdempotent(s: string)
    ensures Trim(Trim(s)) == Trim(s)
  {
    var t := Trim(s);
    if t != [] {
      TrimKeepsCore(s);
      assert LeadingWhitespace(t) == 0;
      assert TrailingWhitespace(t) == 0;
      assert t[0..|t| - 0] == t;
    }
  }

  // ---------------------------------------------------------------------
  // Decimal rendering of integers

  predicate IsDigit(c: char) {
    '0' <= c <= '9'
  }

  predicate AllDigits(s: string) {
    forall i :: 0 <= i < |s| ==> IsDigit(s[i])
  }

  function DigitChar(d: int): (c: char)
    requires 0 <= d < 10
    ensures IsDigit(c)
  {
    ('0' as int + d) as char
  }

  function DigitValue(c: char): (d: int)
    requires IsDigit(c)
    ensures 0 <= d < 10
  {
    c as int - '0' as int
  }

  /** The base-ten digits of `n`, most significant first, without leading zeros. */
  function NatDigits(n: nat): (s: string)
    ensures |s| > 0 && AllDigits(s)
    ensures |s| > 1 ==> s[0] != '0'
    decreases n
  {
    if n < 10 then [DigitChar(n)]
    else NatDigits(n / 10) + [DigitChar(n % 10)]
  }

  /** The number a string of digits denotes (most significant first). */
  function DigitsValue(s: string): nat
    requires AllDigits(s)
  {
    if s == [] then 0
    else 10 * DigitsValue(s[..|s| - 1]) + DigitValue(s[|s| - 1])
  }

  lemma {:induction false} NatDigitsValue(n: nat)
    ensures DigitsValue(NatDigits(n)) == n
    decreases n
  {
    if n >= 10 {
      NatDigitsValue(n / 10);
      var s := NatDigits(n);
      assert s[..|s| - 1] == NatDigits(n / 10);
    }
  }

  /** Swift's `"\(n)"` for an `Int`: a minus sign for negatives, then the digits. */
  function Decimal(n: int): (s: string)
    ensures |s| > 0
    ensures n >= 0 <==> IsDigit(s[0])
    ensures n >= 0 ==> AllDigits(s)
    ensures n < 0 ==> s[0] == '-' && |s| > 1 && AllDigits(s[1..])
  {
    if n < 0 then "-" + NatDigits(-n) else NatDigits(n)
  }

  /** The longest prefix of `s` made of digits. */
  function TakeDigits(s: string): (d: string)
    ensures |d| <= |s| && d == s[..|d|]
    ensures AllDigits(d)
    ensures |d| < |s| ==> !IsDigit(s[|d|])
  {
    if |s| == 0 || !IsDigit(s[0]) then []
    else [s[0]] + TakeDigits(s[1..])
  }

  lemma {:induction false} TakeDigitsOfDigits(d: string, rest: string)
    requires AllDigits(d)
    requires rest == [] || !IsDigit(rest[0])
    ensures TakeDigits(d + rest) == d
  {
    if d != [] {
      assert (d + rest)[1..] == d[1..] + rest;
      TakeDigitsOfDigits(d[1..], rest);
    }
  }

  /** The longest prefix of `s` that is an optional minus sign followed by digits. */
  function NumberToken(s: string): (t: string)
    ensures |t| <= |s| && t == s[..|t|]
  {
    if |s| > 0 && s[0] == '-' then
      var d := TakeDigits(s[1..]);
      assert s[..1 + |d|] == "-" + d;
      "-" + d
    else TakeDigits(s)
  }

  /** A number written by `Decimal` and followed by anything but a digit
      is read back as exactly that number's text. */
  lemma NumberTokenOfDecimal(n: int, rest: string)
    requires rest == [] || !IsDigit(rest[0])
    ensures NumberToken(Decimal(n) + rest) == Decimal(n)
  {
    var s := Decimal(n) + rest;
    if n < 0 {
      var d := NatDigits(-n);
      assert s[0] == '-' && s[1..] == d + rest;
      TakeDigitsOfDigits(d, rest);
      assert NumberToken(s) == "-" + d;
    } else {
      var d := NatDigits(n);
      assert s == d + rest && s[0] != '-';
      TakeDigitsOfDigits(d, rest);
    }
  }

  /** Reads back an integer written by `Decimal`; `None` unless the whole
      string is an optional minus sign followed by at least one digit. */
  function ParseDecimal(s: string): (r: Option<int>)
    ensures r.Some? ==> |s| > 0
  {
    if |s| > 0 && s[0] == '-' then
      if |s| > 1 && AllDigits(s[1..]) then Some(0 - DigitsValue(s[1..]) as int) else None
    else if |s| > 0 && AllDigits(s) then Some(DigitsValue(s))
    else None
  }

  lemma DecimalRoundTrip(n: int)
    ensures ParseDecimal(Decimal(n)) == Some(n)
  {
    var s := Decimal(n);
    if n < 0 {
      assert s[0] == '-';
      assert s[1..] == NatDigits(-n);
      NatDigitsValue(-n);
    } else {
      assert s == NatDigits(n);
      assert s[0] != '-';
      NatDigitsValue(n);
    }
  }
}
