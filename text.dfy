/**
  The JavaScript string primitives the application relies on: `trim`,
  `toLowerCase`, `includes`, `padStart` and the decimal `toString` of an
  integer.
 */
module Text {

  /** JavaScript's WhiteSpace and LineTerminator characters: the set that
      `String.prototype.trim` strips and that the regular-expression class
      `\s` matches. */
  predicate IsWhitespace(c: char) {
    c == ' ' || c == '\t' || c == '\n' || c == '\r' || c == '\U{000B}' || c == '\U{000C}'
    || c == '\U{00A0}' || c == '\U{1680}' || ('\U{2000}' <= c <= '\U{200A}')
    || c == '\U{2028}' || c == '\U{2029}' || c == '\U{202F}' || c == '\U{205F}'
    || c == '\U{3000}' || c == '\U{FEFF}'
  }

  /** A string made of whitespace only (the empty string included): exactly
      the strings whose `trim()` is falsy. */
  predicate IsBlank(s: string) {
    forall i :: 0 <= i < |s| ==> IsWhitespace(s[i])
  }

  predicate IsUpper(c: char) {
    'A' <= c <= 'Z'
  }

  function LowerChar(c: char): (r: char)
    ensures !IsUpper(r)
    ensures IsWhitespace(r) <==> IsWhitespace(c)
  {
    if IsUpper(c) then (c as int + 32) as char else c
  }

  /** `toLowerCase()` on the ASCII letters. */
  function Lower(s: string): (r: string)
    ensures |r| == |s|
    ensures forall i :: 0 <= i < |s| ==> r[i] == LowerChar(s[i])
  {
    seq(|s|, i requires 0 <= i < |s| => LowerChar(s[i]))
  }

  /** `trimStart()`: drops the leading whitespace. */
  function TrimStart(s: string): (r: string)
    ensures |r| <= |s| && r == s[|s| - |r|..]
    ensures forall i :: 0 <= i < |s| - |r| ==> IsWhitespace(s[i])
    ensures r != [] ==> !IsWhitespace(r[0])
    decreases |s|
  {
    if s != [] && IsWhitespace(s[0]) then TrimStart(s[1..]) else s
  }

  /** `trimEnd()`: drops the trailing whitespace. */
  function TrimEnd(s: string): (r: string)
    ensures |r| <= |s| && r == s[..|r|]
    ensures forall i :: |r| <= i < |s| ==> IsWhitespace(s[i])
    ensures r != [] ==> !IsWhitespace(r[|r| - 1])
    decreases |s|
  {
    if s != [] && IsWhitespace(s[|s| - 1]) then TrimEnd(s[..|s| - 1]) else s
  }

  /** Cutting leading whitespace off `s`, giving `t`, then trailing
      whitespace off `t`, giving `r`, leaves the slice of `s` between two
      blank margins. */
  lemma MiddleSlice(s: string, t: string, r: string)
    requires |t| <= |s| && t == s[|s| - |t|..]
    requires forall k :: 0 <= k < |s| - |t| ==> IsWhitespace(s[k])
    requires |r| <= |t| && r == t[..|r|]
    requires forall k :: |r| <= k < |t| ==> IsWhitespace(t[k])
    ensures r == s[|s| - |t|..|s| - |t| + |r|]
    ensures IsBlank(s[..|s| - |t|])
    ensures IsBlank(s[|s| - |t| + |r|..])
  {
    var i, j := |s| - |t|, |s| - |t| + |r|;
    assert r == s[i..j] by {
      forall k | 0 <= k < |r| ensures r[k] == s[i..j][k] { assert r[k] == t[k] == s[i + k]; }
    }
    forall k | 0 <= k < i ensures IsWhitespace(s[..i][k]) { assert s[..i][k] == s[k]; }
    forall k | 0 <= k < |s| - j ensures IsWhitespace(s[j..][k]) { assert s[j..][k] == t[|r| + k]; }
  }

  /** `trim()`: the input without its leading and trailing whitespace. */
  function Trim(s: string): (r: string)
    ensures r != [] ==> !IsWhitespace(r[0]) && !IsWhitespace(r[|r| - 1])
    ensures r == [] <==> IsBlank(s)
    ensures forall c :: c in r ==> c in s
    ensures exists i, j | 0 <= i <= j <= |s| :: r == s[i..j] && IsBlank(s[..i]) && IsBlank(s[j..])
  {
    var t := TrimStart(s);
    var r := TrimEnd(t);
    var i := |s| - |t|;
    MiddleSlice(s, t, r);
    SliceChars(s, i, i + |r|);
    assert r == [] ==> IsBlank(s) by {
      if r == [] { BlankHalves(s, i); }
    }
    r
  }

  /** Every character of a slice is a character of the whole. */
  lemma SliceChars(s: string, i: nat, j: nat)
    requires i <= j <= |s|
    ensures forall c :: c in s[i..j] ==> c in s
  {
    forall c | c in s[i..j] ensures c in s {
      var k :| 0 <= k < j - i && s[i..j][k] == c;
      assert s[i + k] == c;
    }
  }

  /** A string blank on both sides of a cut is blank. */
  lemma BlankHalves(s: string, i: nat)
    requires i <= |s| && IsBlank(s[..i]) && IsBlank(s[i..])
    ensures IsBlank(s)
  {
    forall k | 0 <= k < |s| ensures IsWhitespace(s[k]) {
      if k < i { assert s[..i][k] == s[k]; } else { assert s[i..][k - i] == s[k]; }
    }
  }

  /** A string that `trim()` leaves as it is. */
  predicate IsTrimmed(s: string) {
    s == [] || (!IsWhitespace(s[0]) && !IsWhitespace(s[|s| - 1]))
  }

  lemma TrimOfTrimmed(s: string)
    requires IsTrimmed(s)
    ensures Trim(s) == s
  {
  }

  lemma TrimIdempotent(s: string)
    ensures Trim(Trim(s)) == Trim(s)
  {
    TrimOfTrimmed(Trim(s));
  }

  /** Trailing whitespace makes no difference to `trimEnd()`. */
  lemma {:induction false} TrimEndPadding(s: string, w: string)
    requires IsBlank(w)
    ensures TrimEnd(s + w) == TrimEnd(s)
    decreases |w|
  {
    if w != [] {
      var w' := w[..|w| - 1];
      assert (s + w)[..|s + w| - 1] == s + w';
      TrimEndPadding(s, w');
    } else {
      assert s + w == s;
    }
  }

  /** A trimmed string followed by whitespace trims back to itself. */
  lemma TrimPadded(s: string, w: string)
    requires IsTrimmed(s) && IsBlank(w)
    ensures Trim(s + w) == s
  {
    if s == [] {
      assert s + w == w;
    } else {
      assert (s + w)[0] == s[0];
      assert TrimStart(s + w) == s + w;
      TrimEndPadding(s, w);
    }
  }

  /** `hay.includes(needle)`: `needle` occurs in `hay` at some position. */
  predicate Contains(hay: string, needle: string)
    decreases |hay|
  {
    needle <= hay || (hay != [] && Contains(hay[1..], needle))
  }

  lemma {:induction false} ContainsAt(hay: string, needle: string, k: nat)
    requires k + |needle| <= |hay| && hay[k..k + |needle|] == needle
    ensures Contains(hay, needle)
    decreases k
  {
    if k == 0 {
      assert needle <= hay;
    } else {
      assert hay[1..][k - 1..k - 1 + |needle|] == hay[k..k + |needle|];
      ContainsAt(hay[1..], needle, k - 1);
    }
  }

  lemma {:induction false} ContainsWitness(hay: string, needle: string) returns (k: nat)
    requires Contains(hay, needle)
    ensures k + |needle| <= |hay| && hay[k..k + |needle|] == needle
    decreases |hay|
  {
    if needle <= hay {
      k := 0;
    } else {
      var j := ContainsWitness(hay[1..], needle);
      assert hay[1..][j..j + |needle|] == hay[j + 1..j + 1 + |needle|];
      k := j + 1;
    }
  }

  /** A string contains whatever is spliced into its middle. */
  lemma ContainsMiddle(a: string, b: string, c: string)
    ensures Contains(a + b + c, b)
  {
    assert (a + b + c)[|a|..|a| + |b|] == b;
    ContainsAt(a + b + c, b, |a|);
  }

  /** Every string contains the empty string. */
  lemma ContainsEmpty(hay: string)
    ensures Contains(hay, "")
  {
  }

  predicate IsDigit(c: char) {
    '0' <= c <= '9'
  }

  predicate AllDigits(s: string) {
    forall i :: 0 <= i < |s| ==> IsDigit(s[i])
  }

  function Digit(d: nat): (c: char)
    requires d < 10
    ensures IsDigit(c)
  {
    (48 + d) as char
  }

  function DigitValue(c: char): (d: nat)
    requires IsDigit(c)
    ensures d < 10 && Digit(d) == c
  {
    c as int - 48
  }

  /** The decimal numeral `n.toString()` of a natural number. */
  function NatToString(n: nat): (s: string)
    ensures |s| >= 1
    ensures AllDigits(s)
    ensures n < 10 <==> |s| == 1
    decreases n
  {
    if n < 10 then [Digit(n)] else NatToString(n / 10) + [Digit(n % 10)]
  }

  /** The value of a string of decimal digits: the inverse of NatToString. */
  function ParseDigits(s: string): nat
    requires AllDigits(s)
  {
    if s == [] then 0 else ParseDigits(s[..|s| - 1]) * 10 + DigitValue(s[|s| - 1])
  }

  lemma {:induction false} ParseNatToString(n: nat)
    ensures ParseDigits(NatToString(n)) == n
    decreases n
  {
    var s := NatToString(n);
    if n < 10 {
      assert s[..0] == [];
    } else {
      assert s[..|s| - 1] == NatToString(n / 10);
      ParseNatToString(n / 10);
    }
  }

  /** `i.toString()` of an integer: a minus sign before negative numerals. */
  function IntToString(i: int): (s: string)
    ensures |s| >= 1
    ensures i >= 0 ==> s == NatToString(i)
    ensures i < 0 ==> s[0] == '-' && s[1..] == NatToString(-i)
  {
    if i < 0 then "-" + NatToString(-i) else NatToString(i)
  }

  /** `s.padStart(width, fill)`: `fill` repeated on the left until the string
      is `width` long; a string that long already is returned unchanged. */
  function PadStart(s: string, width: nat, fill: char): (r: string)
    ensures |r| == if |s| < width then width else |s|
    ensures r[|r| - |s|..] == s
    ensures forall i :: 0 <= i < |r| - |s| ==> r[i] == fill
  {
    if |s| < width then seq(width - |s|, _ => fill) + s else s
  }
}
