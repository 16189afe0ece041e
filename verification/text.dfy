/** String helpers the engine relies on: String.prototype.trim, the upper-casing of
    the filter argument, and parseInt on a run of decimal digits. */
module Text {

  /** ECMAScript WhiteSpace and LineTerminator code points, the set `trim` strips. */
  predicate IsJsWhitespace(c: char) {
    var n := c as int;
    || n in {0x09, 0x0A, 0x0B, 0x0C, 0x0D, 0x20, 0xA0, 0x1680, 0x2028, 0x2029, 0x202F, 0x205F, 0x3000, 0xFEFF}
    || 0x2000 <= n <= 0x200A
  }

  /** A string that begins and ends with something other than whitespace (or is empty). */
  predicate IsTrimmed(s: string) {
    s == [] || (!IsJsWhitespace(s[0]) && !IsJsWhitespace(s[|s| - 1]))
  }

  /** How many whitespace characters `s` begins with. */
  function LeadingSpace(s: string): (n: nat)
    ensures n <= |s|
    ensures forall k | 0 <= k < n :: IsJsWhitespace(s[k])
    ensures n < |s| ==> !IsJsWhitespace(s[n])
    decreases |s|
  {
    if |s| > 0 && IsJsWhitespace(s[0]) then
      var n := LeadingSpace(s[1..]);
      assert forall k | 1 <= k < n + 1 :: s[k] == s[1..][k - 1];
      n + 1
    else 0
  }

  /** How many whitespace characters `s` ends with. */
  function TrailingSpace(s: string): (n: nat)
    ensures n <= |s|
    ensures forall k | |s| - n <= k < |s| :: IsJsWhitespace(s[k])
    ensures n < |s| ==> !IsJsWhitespace(s[|s| - n - 1])
    decreases |s|
  {
    if |s| > 0 && IsJsWhitespace(s[|s| - 1]) then
      var n := TrailingSpace(s[..|s| - 1]);
      assert forall k | |s| - 1 - n <= k < |s| - 1 :: s[k] == s[..|s| - 1][k];
      n + 1
    else 0
  }

  /** `r` is the slice of `s` starting at `i`, and all of `s` around it is whitespace. */
  predicate IsCoreAt(s: string, i: int, r: string) {
    && 0 <= i <= |s| - |r|
    && r == s[i..i + |r|]
    && (forall k | 0 <= k < i :: IsJsWhitespace(s[k]))
    && (forall k | i + |r| <= k < |s| :: IsJsWhitespace(s[k]))
  }

  /** `s.trim()`: the result is the middle slice of `s` left once the leading and the
      trailing whitespace is removed, and it neither begins nor ends with whitespace. */
  function Trim(s: string): (r: string)
    ensures IsTrimmed(r)
    ensures exists i :: IsCoreAt(s, i, r)
  {
    var a := LeadingSpace(s);
    var rest := s[a..];
    var b := TrailingSpace(rest);
    var r := rest[..|rest| - b];
    assert r == s[a..a + |r|];
    assert forall k | a + |r| <= k < |s| :: s[k] == rest[k - a];
    assert IsCoreAt(s, a, r);
    r
  }

  lemma TrimmedIsFixed(s: string)
    requires IsTrimmed(s)
    ensures Trim(s) == s
  {
    assert LeadingSpace(s) == 0;
    assert s[0..] == s;
    assert TrailingSpace(s) == 0;
  }

  /** Trimming twice is trimming once. */
  lemma TrimIdempotent(s: string)
    ensures Trim(Trim(s)) == Trim(s)
  {
    TrimmedIsFixed(Trim(s));
  }

  predicate IsAscii(c: char) {
    c as int < 0x80
  }

  /** The characters whose full upper-case mapping is made of ASCII characters only:
      ASCII itself, dotless `ı` (U+0131), long `ſ` (U+017F), sharp `ß` (U+00DF) and the
      Latin ligatures U+FB00 to U+FB06. */
  predicate UppersToAscii(c: char) {
    var n := c as int;
    n < 0x80 || n == 0xDF || n == 0x131 || n == 0x17F || 0xFB00 <= n <= 0xFB06
  }

  /** `toUpperCase` of one character, exact for every character that upper-cases to
      ASCII; any other character is kept as it is. */
  function UpperChar(c: char): (u: string)
    ensures |u| >= 1
    ensures forall i | 0 <= i < |u| :: !('a' <= u[i] <= 'z')
    ensures (forall i | 0 <= i < |u| :: IsAscii(u[i])) <==> UppersToAscii(c)
  {
    var n := c as int;
    if 'a' <= c <= 'z' then [(n - 32) as char]
    else if n == 0x131 then "I"
    else if n == 0x17F then "S"
    else if n == 0xDF then "SS"
    else if n == 0xFB00 then "FF"
    else if n == 0xFB01 then "FI"
    else if n == 0xFB02 then "FL"
    else if n == 0xFB03 then "FFI"
    else if n == 0xFB04 then "FFL"
    else if n == 0xFB05 || n == 0xFB06 then "ST"
    else
      var u := [c];
      assert u[0] == c && |u| == 1;
      u
  }

  /** `toUpperCase`, character by character. The result is never shorter and holds no
      lower-case ASCII letter. */
  function ToUpper(s: string): (r: string)
    ensures |r| >= |s|
    ensures forall i | 0 <= i < |r| :: !('a' <= r[i] <= 'z')
    decreases |s|
  {
    if |s| == 0 then ""
    else
      var head := UpperChar(s[0]);
      var tail := ToUpper(s[1..]);
      AsciiConcat(head, tail);
      head + tail
  }

  /** The upper-cased string is pure ASCII exactly when every character of the input
      upper-cases to ASCII; so a non-ASCII character that is kept as it is keeps the
      result off every ASCII name, as its true upper case would. */
  lemma {:induction false} ToUpperIsAscii(s: string)
    ensures (forall i | 0 <= i < |ToUpper(s)| :: IsAscii(ToUpper(s)[i])) <==>
      (forall i | 0 <= i < |s| :: UppersToAscii(s[i]))
    decreases |s|
  {
    if |s| > 0 {
      ToUpperIsAscii(s[1..]);
      ToUpperCons(s);
      AsciiConcat(UpperChar(s[0]), ToUpper(s[1..]));
      AllOfCons(s);
    }
  }

  lemma AsciiConcat(a: string, b: string)
    ensures forall i | 0 <= i < |a + b| :: !('a' <= (a + b)[i] <= 'z') <==>
      if i < |a| then !('a' <= a[i] <= 'z') else !('a' <= b[i - |a|] <= 'z')
    ensures (forall i | 0 <= i < |a + b| :: IsAscii((a + b)[i])) <==>
      (forall i | 0 <= i < |a| :: IsAscii(a[i])) && (forall i | 0 <= i < |b| :: IsAscii(b[i]))
  {
    if forall i | 0 <= i < |a| :: IsAscii(a[i]) {
      if forall i | 0 <= i < |b| :: IsAscii(b[i]) {
        forall i | 0 <= i < |a + b| ensures IsAscii((a + b)[i]) {
          if i >= |a| {
            assert (a + b)[i] == b[i - |a|];
          }
        }
      } else {
        var j :| 0 <= j < |b| && !IsAscii(b[j]);
        assert (a + b)[|a| + j] == b[j];
      }
    } else {
      var j :| 0 <= j < |a| && !IsAscii(a[j]);
      assert (a + b)[j] == a[j];
    }
  }

  lemma AllOfCons(s: string)
    requires |s| > 0
    ensures (forall i | 0 <= i < |s| :: UppersToAscii(s[i])) <==>
      UppersToAscii(s[0]) && forall i | 0 <= i < |s[1..]| :: UppersToAscii(s[1..][i])
  {
    assert forall i | 1 <= i < |s| :: s[i] == s[1..][i - 1];
  }

  /** Upper-casing distributes over concatenation. */
  lemma {:induction false} ToUpperSplits(a: string, b: string)
    ensures ToUpper(a + b) == ToUpper(a) + ToUpper(b)
    decreases |a|
  {
    if |a| == 0 {
      assert a + b == b;
    } else {
      assert (a + b)[0] == a[0] && (a + b)[1..] == a[1..] + b;
      ToUpperSplits(a[1..], b);
    }
  }

  /** Every character of an upper-cased character upper-cases to itself. */
  lemma UpperCharIsFixed(c: char)
    ensures forall i | 0 <= i < |UpperChar(c)| :: UpperChar(UpperChar(c)[i]) == [UpperChar(c)[i]]
  {
  }

  /** A string of characters that upper-case to themselves upper-cases to itself. */
  lemma {:induction false} FixedCharsAreFixed(s: string)
    requires forall i | 0 <= i < |s| :: UpperChar(s[i]) == [s[i]]
    ensures ToUpper(s) == s
    decreases |s|
  {
    if |s| > 0 {
      FixedCharsAreFixed(s[1..]);
      assert s == [s[0]] + s[1..];
    }
  }

  /** Upper-casing twice is upper-casing once. */
  lemma {:induction false} ToUpperIdempotent(s: string)
    ensures ToUpper(ToUpper(s)) == ToUpper(s)
    decreases |s|
  {
    if |s| > 0 {
      var head := UpperChar(s[0]);
      ToUpperSplits(head, ToUpper(s[1..]));
      UpperCharIsFixed(s[0]);
      FixedCharsAreFixed(head);
      ToUpperIdempotent(s[1..]);
    }
  }

  /** One unfolding of ToUpper. */
  lemma ToUpperCons(s: string)
    requires |s| > 0
    ensures ToUpper(s) == UpperChar(s[0]) + ToUpper(s[1..])
  {
  }

  /** Dotless `ı` upper-cases to `I`: `ınfo` becomes INFO. */
  lemma DotlessInfo()
    ensures ToUpper("\U{0131}nfo") == "INFO"
  {
    ToUpperCons("\U{0131}nfo");
    assert "\U{0131}nfo"[1..] == "nfo";
    ToUpperCons("nfo");
    assert "nfo"[1..] == "fo";
    ToUpperCons("fo");
    assert "fo"[1..] == "o";
    ToUpperCons("o");
    assert "o"[1..] == "";
  }

  lemma DotlessIng()
    ensures ToUpper("\U{0131}ng") == "ING"
  {
    ToUpperCons("\U{0131}ng");
    assert "\U{0131}ng"[1..] == "ng";
    ToUpperCons("ng");
    assert "ng"[1..] == "g";
    ToUpperCons("g");
    assert "g"[1..] == "";
  }

  lemma WarnUpper()
    ensures ToUpper("warn") == "WARN"
  {
    ToUpperCons("warn");
    assert "warn"[1..] == "arn";
    ToUpperCons("arn");
    assert "arn"[1..] == "rn";
    ToUpperCons("rn");
    assert "rn"[1..] == "n";
    ToUpperCons("n");
    assert "n"[1..] == "";
  }

  /** ... and `warnıng` becomes WARNING. */
  lemma DotlessWarning()
    ensures ToUpper("warn\U{0131}ng") == "WARNING"
  {
    WarnUpper();
    DotlessIng();
    ToUpperSplits("warn", "\U{0131}ng");
    assert "warn" + "\U{0131}ng" == "warn\U{0131}ng";
  }

  predicate IsAsciiDigits(s: string) {
    forall i | 0 <= i < |s| :: '0' <= s[i] <= '9'
  }

  function Pow10(n: nat): (p: nat)
    ensures p >= 1
  {
    if n == 0 then 1 else 10 * Pow10(n - 1)
  }

  /** `parseInt(s, 10)` on a non-empty run of ASCII digits. */
  function DecimalValue(s: string): (v: nat)
    requires IsAsciiDigits(s)
    ensures v < Pow10(|s|)
    decreases |s|
  {
    if |s| == 0 then 0
    else
      var prefix := DecimalValue(s[..|s| - 1]);
      var digit := s[|s| - 1] as int - '0' as int;
      assert prefix * 10 + digit < Pow10(|s| - 1) * 10 by {
        assert prefix + 1 <= Pow10(|s| - 1);
        assert (prefix + 1) * 10 <= Pow10(|s| - 1) * 10;
      }
      prefix * 10 + digit
  }
}
