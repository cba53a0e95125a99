/**
  Stand-ins for the few pieces of the JavaScript host library that the core
  relies on: the `\s` character class, `String.prototype.trim`,
  `toLowerCase`, `includes`, `parseInt` and the conversion of a number to a
  string that `localStorage.setItem` performs.
 */
module JsHost {
  import opened Wrappers

  /** A JavaScript number as the turn counter can hold it: an integer, or
      NaN (`None`), which is what `parseInt` yields for text without digits. */
  type Count = Option<int>

  /** `c++` on a number: NaN stays NaN. */
  function Inc(c: Count): (r: Count)
    ensures r.None? <==> c.None?
    ensures c.Some? ==> r.value == c.value + 1
  {
    match c
    case None => None
    case Some(n) => Some(n + 1)
  }

  /** `a + b` on numbers: NaN absorbs. */
  function Add(a: Count, b: Count): (r: Count)
    ensures r.Some? <==> a.Some? && b.Some?
    ensures r.Some? ==> r.value == a.value + b.value
  {
    if a.Some? && b.Some? then Some(a.value + b.value) else None
  }

  /** `c < bound` in JavaScript: every comparison with NaN is false. */
  predicate Below(c: Count, bound: int) {
    c.Some? && c.value < bound
  }

  /** The characters matched by `\s` (WhiteSpace and LineTerminator). */
  predicate IsSpace(c: char) {
    || ('\t' <= c <= '\r')
    || c == ' ' || c == '\U{A0}' || c == '\U{1680}'
    || ('\U{2000}' <= c <= '\U{200A}')
    || c == '\U{2028}' || c == '\U{2029}' || c == '\U{202F}'
    || c == '\U{205F}' || c == '\U{3000}' || c == '\U{FEFF}'
  }

  /** `trimStart`: drops the leading run of `\s` characters. */
  function TrimStart(s: string): (r: string)
    ensures |r| <= |s| && r == s[|s| - |r|..]
    ensures r == [] || !IsSpace(r[0])
    ensures forall i :: 0 <= i < |s| - |r| ==> IsSpace(s[i])
  {
    if s != [] && IsSpace(s[0]) then TrimStart(s[1..]) else s
  }

  /** `trimEnd`: drops the trailing run of `\s` characters. */
  function TrimEnd(s: string): (r: string)
    ensures |r| <= |s| && r == s[..|r|]
    ensures r == [] || !IsSpace(r[|r| - 1])
    ensures forall i :: |r| <= i < |s| ==> IsSpace(s[i])
  {
    if s != [] && IsSpace(s[|s| - 1]) then TrimEnd(s[..|s| - 1]) else s
  }

  /** `trim`: both ends. */
  function Trim(s: string): (r: string) {
    TrimEnd(TrimStart(s))
  }

  /** A string trims to nothing exactly when every character is `\s`. */
  lemma TrimEmptyIff(s: string)
    ensures Trim(s) == [] <==> forall i :: 0 <= i < |s| ==> IsSpace(s[i])
  {
    var t := TrimStart(s);
    var k := |s| - |t|;
    if t == [] {
      assert Trim(s) == [];
    } else {
      assert t[0] == s[k];
      assert !IsSpace(s[k]);
      assert Trim(s) != [];
    }
  }

  /** `toLowerCase` for the letters the core meets: ASCII and Latin-1. */
  function LowerChar(c: char): char {
    if 'A' <= c <= 'Z' || ('\U{C0}' <= c <= '\U{DE}' && c != '\U{D7}')
    then (c as int + 32) as char
    else c
  }

  function ToLower(s: string): (r: string)
    ensures |r| == |s|
    ensures forall i :: 0 <= i < |s| ==> r[i] == LowerChar(s[i])
  {
    if s == [] then [] else [LowerChar(s[0])] + ToLower(s[1..])
  }

  /** `k` occurs in `s` starting at position `i`. */
  predicate OccursAt(s: string, k: string, i: int) {
    0 <= i <= |s| - |k| && s[i..i + |k|] == k
  }

  /** `s.includes(k)`: `k` occurs in `s` at some position. */
  predicate Contains(s: string, k: string) {
    exists i :: 0 <= i <= |s| - |k| && OccursAt(s, k, i)
  }

  // ---------------------------------------------------------------------
  // Numbers as text

  predicate IsDecDigit(c: char) { '0' <= c <= '9' }

  predicate IsHexDigit(c: char) {
    IsDecDigit(c) || 'a' <= c <= 'f' || 'A' <= c <= 'F'
  }

  function DigitValue(c: char): (v: nat)
    requires IsHexDigit(c)
    ensures v < 16 && (IsDecDigit(c) ==> v < 10)
  {
    if IsDecDigit(c) then c as int - '0' as int
    else if 'a' <= c <= 'f' then c as int - 'a' as int + 10
    else c as int - 'A' as int + 10
  }

  /** The longest prefix of `s` made of digits of the given radix (10 or 16). */
  function DigitPrefix(s: string, hex: bool): (d: string)
    ensures |d| <= |s| && d == s[..|d|]
    ensures forall i :: 0 <= i < |d| ==> IsHexDigit(d[i]) && (!hex ==> IsDecDigit(d[i]))
    ensures |d| < |s| ==> !(if hex then IsHexDigit(s[|d|]) else IsDecDigit(s[|d|]))
  {
    if s != [] && (if hex then IsHexDigit(s[0]) else IsDecDigit(s[0]))
    then [s[0]] + DigitPrefix(s[1..], hex)
    else []
  }

  /** The value of a digit string, most significant digit first. */
  function DigitsValue(d: string, radix: nat): nat
    requires forall i :: 0 <= i < |d| ==> IsHexDigit(d[i])
  {
    if d == [] then 0
    else DigitsValue(d[..|d| - 1], radix) * radix + DigitValue(d[|d| - 1])
  }

  /** Whether the text after an optional sign starts with `0x` or `0X`. */
  predicate HexPrefixed(u: string) {
    |u| >= 2 && u[0] == '0' && (u[1] == 'x' || u[1] == 'X')
  }

  /** The unsigned part of `parseInt`: radix 16 after `0x`/`0X`, radix 10
      otherwise, the longest run of digits, and NaN when there is none. */
  function ParseMagnitude(u: string): Option<nat> {
    var hex := HexPrefixed(u);
    var d := DigitPrefix(if hex then u[2..] else u, hex);
    if d == [] then None else Some(DigitsValue(d, if hex then 16 else 10))
  }

  /** `t` without its leading sign, if it has one. */
  function Unsigned(t: string): string {
    if t != [] && (t[0] == '-' || t[0] == '+') then t[1..] else t
  }

  /**
    `parseInt(s)` with no radix: leading `\s` skipped, an optional sign, a
    `0x`/`0X` prefix selecting radix 16, then the longest run of digits;
    no digits at all gives NaN.
   */
  function ParseInt(s: string): Count {
    var t := TrimStart(s);
    var m := ParseMagnitude(Unsigned(t));
    if m.None? then None
    else if t != [] && t[0] == '-' then Some(-(m.value as int))
    else Some(m.value)
  }

  function DigitChar(n: nat): (c: char)
    requires n < 10
    ensures IsDecDigit(c) && DigitValue(c) == n
  {
    ('0' as int + n) as char
  }

  /** The decimal numeral of a natural number, without leading zeros. */
  function NatToString(n: nat): (s: string)
    ensures s != []
    ensures forall i :: 0 <= i < |s| ==> IsDecDigit(s[i])
    ensures |s| == 1 <==> n < 10
    ensures n >= 10 ==> s[0] != '0'
  {
    if n < 10 then [DigitChar(n)] else NatToString(n / 10) + [DigitChar(n % 10)]
  }

  /** `String(c)`, which `localStorage.setItem` applies to a number. */
  function NumberToString(c: Count): string {
    match c
    case None => "NaN"
    case Some(n) => if n < 0 then "-" + NatToString(-n) else NatToString(n)
  }

  lemma {:induction false} NatToStringValue(n: nat)
    ensures DigitsValue(NatToString(n), 10) == n
  {
    var s := NatToString(n);
    if n >= 10 {
      NatToStringValue(n / 10);
      assert s[..|s| - 1] == NatToString(n / 10);
    }
  }

  lemma {:induction false} DigitPrefixOfDigits(s: string)
    requires forall i :: 0 <= i < |s| ==> IsDecDigit(s[i])
    ensures DigitPrefix(s, false) == s
  {
    if s != [] {
      DigitPrefixOfDigits(s[1..]);
    }
  }

  /** `parseInt`'s unsigned part reads a numeral of `NatToString` as its value. */
  lemma MagnitudeOfNumeral(m: nat)
    ensures ParseMagnitude(NatToString(m)) == Some(m)
  {
    var d := NatToString(m);
    assert !HexPrefixed(d);
    DigitPrefixOfDigits(d);
    NatToStringValue(m);
  }

  /** `parseInt` reads a numeral of `NatToString`. */
  lemma ParseUnsigned(m: nat)
    ensures ParseInt(NatToString(m)) == Some(m)
  {
    MagnitudeOfNumeral(m);
    ParseDigits(NatToString(m), m);
  }

  /** `parseInt` reads a numeral of `NatToString` after a minus sign. */
  lemma ParseNegative(m: nat)
    ensures ParseInt("-" + NatToString(m)) == Some(-(m as int))
  {
    MagnitudeOfNumeral(m);
    ParseNegativeDigits(NatToString(m), m);
  }

  /** Text that starts with a digit is read by its unsigned part alone. */
  lemma ParseDigits(d: string, m: nat)
    requires d != [] && IsDecDigit(d[0]) && ParseMagnitude(d) == Some(m)
    ensures ParseInt(d) == Some(m)
  {
    assert !IsSpace(d[0]);
    TrimStartKeeps(d);
    assert Unsigned(d) == d;
  }

  /** A minus sign in front of such text negates what it reads as. */
  lemma ParseNegativeDigits(d: string, m: nat)
    requires d != [] && IsDecDigit(d[0]) && ParseMagnitude(d) == Some(m)
    ensures ParseInt("-" + d) == Some(-(m as int))
  {
    var s := "-" + d;
    assert s[0] == '-' && !IsSpace(s[0]);
    TrimStartKeeps(s);
    assert Unsigned(s) == s[1..] == d;
  }

  /** Text that does not start with `\s` is left alone by `trimStart`. */
  lemma TrimStartKeeps(s: string)
    requires s != [] && !IsSpace(s[0])
    ensures TrimStart(s) == s
  {
  }

  /** Reading back what was stored gives the same number, NaN included. */
  lemma NumberRoundTrip(c: Count)
    ensures ParseInt(NumberToString(c)) == c
  {
    match c
    case None =>
      var t := "NaN";
      assert !IsSpace(t[0]) && !IsDecDigit(t[0]);
      assert TrimStart(t) == t && Unsigned(t) == t && !HexPrefixed(t);
      assert DigitPrefix(t, false) == [];
    case Some(n) =>
      if n < 0 {
        assert NumberToString(c) == "-" + NatToString(-n);
        ParseNegative(-n);
      } else {
        assert NumberToString(c) == NatToString(n);
        ParseUnsigned(n);
      }
  }
}
