/**
  String helpers shared by the agents: Python's whitespace set and str.strip,
  ASCII case mapping, substring and prefix tests, and Python's int() on text.
*/
module Text {
  import opened Wrappers

  /** The characters Python's str.isspace() accepts (and str.strip() removes). */
  predicate IsSpace(c: char) {
    ('\U{0009}' <= c <= '\U{000D}') || ('\U{001C}' <= c <= '\U{001F}') || c == ' '
    || c == '\U{0085}' || c == '\U{00A0}' || c == '\U{1680}' || ('\U{2000}' <= c <= '\U{200A}')
    || c == '\U{2028}' || c == '\U{2029}' || c == '\U{202F}' || c == '\U{205F}' || c == '\U{3000}'
  }

  predicate IsDigit(c: char) { '0' <= c <= '9' }
  predicate IsUpper(c: char) { 'A' <= c <= 'Z' }
  predicate IsLower(c: char) { 'a' <= c <= 'z' }

  /** Drops the leading characters satisfying `drop`. */
  function TrimLeft(s: string, drop: char -> bool): (r: string)
    ensures |r| <= |s| && r == s[|s| - |r|..]
    ensures r == [] || !drop(r[0])
    ensures forall i :: 0 <= i < |s| - |r| ==> drop(s[i])
  {
    if s != [] && drop(s[0]) then TrimLeft(s[1..], drop) else s
  }

  /** Drops the trailing characters satisfying `drop`. */
  function TrimRight(s: string, drop: char -> bool): (r: string)
    ensures |r| <= |s| && r == s[..|r|]
    ensures r == [] || !drop(r[|r| - 1])
    ensures forall i :: |r| <= i < |s| ==> drop(s[i])
  {
    if s != [] && drop(s[|s| - 1]) then TrimRight(s[..|s| - 1], drop) else s
  }

  /** Python's str.strip(chars): removes `drop` characters from both ends. */
  function Trim(s: string, drop: char -> bool): (r: string)
    ensures |r| <= |s|
    ensures r == [] || (!drop(r[0]) && !drop(r[|r| - 1]))
    ensures forall c :: c in r ==> c in s
  {
    var l := TrimLeft(s, drop);
    var r := TrimRight(l, drop);
    assert r == s[|s| - |l|..|s| - |l| + |r|];
    r
  }

  /** Python's str.strip() with no argument. */
  function Strip(s: string): (r: string)
    ensures r == [] || (!IsSpace(r[0]) && !IsSpace(r[|r| - 1]))
  {
    Trim(s, IsSpace)
  }

  /** A string without whitespace at either end is its own strip. */
  lemma StripUnchanged(s: string)
    requires s == [] || (!IsSpace(s[0]) && !IsSpace(s[|s| - 1]))
    ensures Strip(s) == s
  {
    assert TrimLeft(s, IsSpace) == s;
    assert TrimRight(s, IsSpace) == s;
  }

  function LowerChar(c: char): (d: char)
    ensures !IsUpper(d)
  {
    if IsUpper(c) then (c as int - 'A' as int + 'a' as int) as char else c
  }

  function UpperChar(c: char): (d: char)
    ensures !IsLower(d)
  {
    if IsLower(c) then (c as int - 'a' as int + 'A' as int) as char else c
  }

  /** str.lower() on the ASCII letters. */
  function Lower(s: string): (r: string)
    ensures |r| == |s|
    ensures forall i :: 0 <= i < |s| ==> r[i] == LowerChar(s[i])
  {
    seq(|s|, i requires 0 <= i < |s| => LowerChar(s[i]))
  }

  /** str.upper() on the ASCII letters. */
  function Upper(s: string): (r: string)
    ensures |r| == |s|
    ensures forall i :: 0 <= i < |s| ==> r[i] == UpperChar(s[i])
  {
    seq(|s|, i requires 0 <= i < |s| => UpperChar(s[i]))
  }

  lemma LowerIdempotent(s: string)
    ensures Lower(Lower(s)) == Lower(s)
  {
  }

  predicate StartsWith(s: string, prefix: string) {
    |prefix| <= |s| && s[..|prefix|] == prefix
  }

  /** Python's `needle in hay` for strings. */
  predicate Contains(hay: string, needle: string)
    decreases |hay|
  {
    StartsWith(hay, needle) || (hay != [] && Contains(hay[1..], needle))
  }

  lemma {:induction false} ContainsAt(hay: string, needle: string, i: nat)
    requires i + |needle| <= |hay| && hay[i..i + |needle|] == needle
    ensures Contains(hay, needle)
  {
    if i > 0 {
      assert hay[1..][i - 1..i - 1 + |needle|] == needle;
      ContainsAt(hay[1..], needle, i - 1);
    }
  }

  lemma {:induction false} ContainsWitness(hay: string, needle: string) returns (i: nat)
    requires Contains(hay, needle)
    ensures i + |needle| <= |hay| && hay[i..i + |needle|] == needle
    decreases |hay|
  {
    if StartsWith(hay, needle) {
      i := 0;
    } else {
      var j := ContainsWitness(hay[1..], needle);
      i := j + 1;
      assert hay[i..i + |needle|] == hay[1..][j..j + |needle|];
    }
  }

  /** Containment is kept when text is added on either side. */
  lemma ContainsExtend(hay: string, needle: string, before: string, after: string)
    requires Contains(hay, needle)
    ensures Contains(before + hay + after, needle)
  {
    var i := ContainsWitness(hay, needle);
    var big := before + hay + after;
    assert big[|before| + i..|before| + i + |needle|] == hay[i..i + |needle|];
    ContainsAt(big, needle, |before| + i);
  }

  /** The digits-and-underscores body Python's int() accepts: digits, single underscores between digits. */
  predicate DigitGroups(s: string) {
    && |s| > 0 && IsDigit(s[0]) && IsDigit(s[|s| - 1])
    && (forall i :: 0 <= i < |s| ==> IsDigit(s[i]) || s[i] == '_')
    && (forall i :: 0 <= i < |s| - 1 ==> !DoubleUnderscore(s, i))
  }

  /** Positions i and i + 1 of `s` are both underscores. */
  predicate DoubleUnderscore(s: string, i: int)
    requires 0 <= i < |s| - 1
  {
    s[i] == '_' && s[i + 1] == '_'
  }

  /** The decimal value of the digits of `s`, underscores skipped. */
  function DigitsValue(s: string): (v: nat)
  {
    if s == [] then 0
    else if IsDigit(s[|s| - 1]) then DigitsValue(s[..|s| - 1]) * 10 + (s[|s| - 1] as int - '0' as int)
    else DigitsValue(s[..|s| - 1])
  }

  /** Python's int() on a string (base 10, ASCII digits): None where it raises ValueError. */
  function ParseInt(s: string): (r: Option<int>)
    ensures r.Some? ==> Strip(s) != ""
  {
    ParseStripped(Strip(s))
  }

  /** int() once the surrounding whitespace is gone: an optional sign, then the digit groups. */
  function ParseStripped(t: string): (r: Option<int>)
    ensures r.Some? ==> t != ""
  {
    if t == "" then None
    else if t[0] == '-' then
      match ParseDigits(t[1..])
      case Some(v) => Some(-v)
      case None => None
    else if t[0] == '+' then ParseDigits(t[1..])
    else ParseDigits(t)
  }

  /** The unsigned body: its value when it is digit groups, None otherwise. */
  function ParseDigits(b: string): (r: Option<int>)
    ensures r.Some? <==> DigitGroups(b)
  {
    if DigitGroups(b) then Some(DigitsValue(b)) else None
  }

  /** Decimal text of a natural number. */
  function NatToString(n: nat): (s: string)
    ensures |s| > 0 && forall i :: 0 <= i < |s| ==> IsDigit(s[i])
  {
    var d := ['0' + (n % 10) as char];
    if n < 10 then d else NatToString(n / 10) + d
  }

  lemma {:induction false} NatToStringValue(n: nat)
    ensures DigitsValue(NatToString(n)) == n
  {
    var s := NatToString(n);
    if n >= 10 {
      NatToStringValue(n / 10);
      assert s[..|s| - 1] == NatToString(n / 10);
    }
  }

  lemma DigitsAreGroups(s: string)
    requires |s| > 0 && forall i :: 0 <= i < |s| ==> IsDigit(s[i])
    ensures DigitGroups(s)
  {
  }

  lemma StripDigits(s: string)
    requires |s| > 0 && forall i :: 0 <= i < |s| ==> IsDigit(s[i])
    ensures Strip(s) == s
  {
    assert IsDigit(s[0]) && IsDigit(s[|s| - 1]);
    StripUnchanged(s);
  }

  /** int() reads back the decimal text of every natural number. */
  lemma ParseIntOfNat(n: nat)
    ensures ParseInt(NatToString(n)) == Some(n)
  {
    var s := NatToString(n);
    DigitsAreGroups(s);
    StripDigits(s);
    assert IsDigit(s[0]);
    assert ParseStripped(s) == ParseDigits(s);
    NatToStringValue(n);
  }
}
