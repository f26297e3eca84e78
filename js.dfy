/** The JavaScript values and string operations that the screens rely on. */
module Js {

  /** A value that may be `undefined` or `null`. */
  datatype Option<T> = None | Some(value: T)

  /** A boolean JSON field that the server may also leave out. */
  datatype JsBool = True | False | Missing

  /** JavaScript truthiness of such a field (`!!x`): only `true` is truthy. */
  predicate Truthy(b: JsBool) { b == True }

  /** The JSON value of a boolean, for strict comparisons `x === b`. */
  function FromBool(b: bool): (j: JsBool)
    ensures j != Missing
    ensures Truthy(j) == b
  {
    if b then True else False
  }

  /** `message || fallback`: an absent or empty message gives way to the fallback. */
  function OrElse(message: Option<string>, fallback: string): (r: string)
    ensures r == fallback || (message.Some? && r == message.value)
    ensures message.Some? && message.value != "" ==> r == message.value
    ensures fallback != "" ==> r != ""
  {
    if message.Some? && message.value != "" then message.value else fallback
  }

  // ---------------------------------------------------------------------------
  // String.prototype.trim

  /** The characters `trim` removes: the white space and line terminator code points. */
  predicate IsWhitespace(c: char) {
    c == ' ' || c == '\t' || c == '\n' || c == '\r' || c == '\U{000B}' || c == '\U{000C}'
    || c == '\U{00A0}' || c == '\U{1680}' || ('\U{2000}' <= c <= '\U{200A}')
    || c == '\U{2028}' || c == '\U{2029}' || c == '\U{202F}' || c == '\U{205F}'
    || c == '\U{3000}' || c == '\U{FEFF}'
  }

  /** A string made only of white space (the empty string included). */
  predicate Blank(s: string) {
    s == [] || (IsWhitespace(s[0]) && Blank(s[1..]))
  }

  function TrimStart(s: string): string {
    if s != [] && IsWhitespace(s[0]) then TrimStart(s[1..]) else s
  }

  function TrimEnd(s: string): string {
    if s != [] && IsWhitespace(s[|s| - 1]) then TrimEnd(s[..|s| - 1]) else s
  }

  /** `s.trim()`. */
  function Trim(s: string): string {
    TrimEnd(TrimStart(s))
  }

  lemma {:induction false} TrimStartKeepsBlank(s: string)
    ensures Blank(TrimStart(s)) <==> Blank(s)
  {
    if s != [] && IsWhitespace(s[0]) {
      TrimStartKeepsBlank(s[1..]);
    }
  }

  /** A blank string with one more white-space character at its end is still blank. */
  lemma {:induction false} BlankSnoc(s: string, c: char)
    ensures Blank(s + [c]) <==> Blank(s) && IsWhitespace(c)
  {
    if s != [] {
      assert (s + [c])[1..] == s[1..] + [c];
      BlankSnoc(s[1..], c);
    }
  }

  lemma {:induction false} TrimEndEmptyIffBlank(s: string)
    ensures TrimEnd(s) == [] <==> Blank(s)
  {
    if s != [] {
      var init := s[..|s| - 1];
      assert s == init + [s[|s| - 1]];
      BlankSnoc(init, s[|s| - 1]);
      if IsWhitespace(s[|s| - 1]) {
        TrimEndEmptyIffBlank(init);
      }
    }
  }

  /** `!s.trim()` holds exactly for the blank strings. */
  lemma TrimEmptyIffBlank(s: string)
    ensures Trim(s) == "" <==> Blank(s)
  {
    TrimStartKeepsBlank(s);
    TrimEndEmptyIffBlank(TrimStart(s));
  }

  /** Evaluates `!s.trim()`. */
  method TrimmedEmpty(s: string) returns (empty: bool)
    ensures empty <==> Blank(s)
  {
    TrimEmptyIffBlank(s);
    empty := Trim(s) == "";
  }

  // ---------------------------------------------------------------------------
  // String.prototype.toLowerCase (ASCII letters) and String.prototype.includes

  function LowerChar(c: char): (d: char)
    ensures !('A' <= d <= 'Z')
    ensures !('A' <= c <= 'Z') ==> d == c
  {
    if 'A' <= c <= 'Z' then (c as int + 32) as char else c
  }

  /** `s.toLowerCase()` on the ASCII letters. */
  function Lower(s: string): (r: string)
    ensures |r| == |s|
    ensures forall i :: 0 <= i < |s| ==> r[i] == LowerChar(s[i])
  {
    if s == [] then [] else [LowerChar(s[0])] + Lower(s[1..])
  }

  /** Two strings that differ at most in the case of their letters. */
  predicate SameIgnoringCase(a: string, b: string) {
    |a| == |b| && forall i :: 0 <= i < |a| ==> LowerChar(a[i]) == LowerChar(b[i])
  }

  lemma SameIgnoringCaseLowersEqual(a: string, b: string)
    requires SameIgnoringCase(a, b)
    ensures Lower(a) == Lower(b)
  {
    assert forall i :: 0 <= i < |a| ==> Lower(a)[i] == Lower(b)[i];
  }

  /** `hay.includes(needle)`, scanning from the left as the built-in does. */
  predicate Includes(hay: string, needle: string)
    decreases |hay|
  {
    needle <= hay || (hay != [] && Includes(hay[1..], needle))
  }

  /** The needle starts at some position of the haystack. */
  predicate Occurs(needle: string, hay: string) {
    exists i :: 0 <= i <= |hay| && needle <= hay[i..]
  }

  /** The scan finds the needle exactly when it starts at some position of the haystack. */
  lemma {:induction false} IncludesIffOccurs(hay: string, needle: string)
    ensures Includes(hay, needle) <==> Occurs(needle, hay)
  {
    if needle <= hay {
      assert hay[0..] == hay;
    } else if hay == [] {
      forall i | 0 <= i <= |hay| ensures !(needle <= hay[i..]) {
        assert hay[i..] == hay;
      }
    } else {
      IncludesIffOccurs(hay[1..], needle);
      if Includes(hay[1..], needle) {
        var j :| 0 <= j <= |hay[1..]| && needle <= hay[1..][j..];
        assert hay[1..][j..] == hay[j + 1..];
      } else {
        forall i | 0 <= i <= |hay| ensures !(needle <= hay[i..]) {
          if i > 0 { assert hay[1..][i - 1..] == hay[i..]; }
          else { assert hay[0..] == hay; }
        }
      }
    }
  }

  // ---------------------------------------------------------------------------
  // Digits and decimal strings (`${n}` for a natural number)

  /** How many UTF-16 code units a character takes: two for one above U+FFFF (a surrogate
      pair), one otherwise. */
  function Utf16Units(c: char): (n: nat)
    ensures n == 1 || n == 2
  {
    if c as int > 0xFFFF then 2 else 1
  }

  /** A string's `length`: JavaScript counts UTF-16 code units, not characters. */
  function Utf16Length(s: string): (n: nat)
    ensures |s| <= n <= 2 * |s|
    ensures n == 0 <==> s == ""
  {
    if s == [] then 0 else Utf16Units(s[0]) + Utf16Length(s[1..])
  }

  /** Without characters above U+FFFF, `length` is the number of characters. */
  lemma {:induction false} Utf16LengthOfBasicPlane(s: string)
    requires forall i :: 0 <= i < |s| ==> s[i] as int <= 0xFFFF
    ensures Utf16Length(s) == |s|
  {
    if s != [] {
      assert forall i :: 0 <= i < |s[1..]| ==> s[1..][i] == s[i + 1];
      Utf16LengthOfBasicPlane(s[1..]);
    }
  }

  predicate IsAsciiDigit(c: char) { '0' <= c <= '9' }

  function DigitChar(d: nat): (c: char)
    requires d < 10
    ensures IsAsciiDigit(c)
  {
    (48 + d) as char
  }

  /** The decimal representation of a natural number, without leading zeros. */
  function DecimalString(n: nat): (s: string)
    ensures |s| >= 1
    ensures n >= 10 ==> |s| >= 2
    ensures forall i :: 0 <= i < |s| ==> IsAsciiDigit(s[i])
  {
    if n < 10 then [DigitChar(n)] else DecimalString(n / 10) + [DigitChar(n % 10)]
  }

  /** Different numbers have different decimal strings. */
  lemma {:induction false} DecimalStringInjective(m: nat, n: nat)
    requires DecimalString(m) == DecimalString(n)
    ensures m == n
  {
    var a, b := DecimalString(m), DecimalString(n);
    if m < 10 && n < 10 {
      assert a[0] == DigitChar(m) && b[0] == DigitChar(n);
    } else if m >= 10 && n >= 10 {
      assert a[|a| - 1] == DigitChar(m % 10) && b[|b| - 1] == DigitChar(n % 10);
      assert a[..|a| - 1] == DecimalString(m / 10);
      assert b[..|b| - 1] == DecimalString(n / 10);
      DecimalStringInjective(m / 10, n / 10);
    }
  }
}
