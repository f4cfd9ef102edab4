/** The JavaScript string operations the handlers and the pages use, on `seq<char>`:
    the white-space class of `trim()` and `\s`, `toLowerCase()` on ASCII letters,
    `includes`, `indexOf`, `split(sep)[i]`, `replace(pattern, replacement)` with a string
    pattern, `parseInt` and the decimal rendering of a non-negative integer. */
module Text {
  import opened Optional

  /** The characters JavaScript's `trim()` removes and `\s` matches: WhiteSpace and
      LineTerminator of ECMA-262. */
  predicate IsSpace(c: char) {
    c == '\t' || c == '\n' || c == '\U{000B}' || c == '\U{000C}' || c == '\r' || c == ' '
    || c == '\U{00A0}' || c == '\U{1680}' || ('\U{2000}' <= c <= '\U{200A}')
    || c == '\U{2028}' || c == '\U{2029}' || c == '\U{202F}' || c == '\U{205F}'
    || c == '\U{3000}' || c == '\U{FEFF}'
  }

  predicate IsUpper(c: char) { 'A' <= c <= 'Z' }

  predicate IsDigit(c: char) { '0' <= c <= '9' }

  predicate IsHexDigit(c: char) { IsDigit(c) || 'a' <= c <= 'f' || 'A' <= c <= 'F' }

  predicate NoSpace(s: string) { forall i :: 0 <= i < |s| ==> !IsSpace(s[i]) }

  predicate NoUpper(s: string) { forall i :: 0 <= i < |s| ==> !IsUpper(s[i]) }

  function LowerChar(c: char): char {
    if IsUpper(c) then (c as int + 32) as char else c
  }

  /** `toLowerCase()` on the ASCII letters. */
  function Lower(s: string): (r: string)
    ensures |r| == |s| && NoUpper(r)
    ensures forall i :: 0 <= i < |s| ==> r[i] == s[i] || (IsUpper(s[i]) && r[i] as int == s[i] as int + 32)
    ensures forall i :: 0 <= i < |s| ==> (IsSpace(r[i]) <==> IsSpace(s[i]))
  {
    if s == [] then [] else [LowerChar(s[0])] + Lower(s[1..])
  }

  /** Leading white space removed: what is dropped is all white space, and what is
      kept is a suffix that starts with something else. */
  function TrimStart(s: string): (r: string)
    ensures |r| <= |s| && r == s[|s| - |r|..]
    ensures r == [] || !IsSpace(r[0])
    ensures forall k :: 0 <= k < |s| - |r| ==> IsSpace(s[k])
  {
    if s != [] && IsSpace(s[0]) then TrimStart(s[1..]) else s
  }

  /** Trailing white space removed, the mirror image of TrimStart. */
  function TrimEnd(s: string): (r: string)
    ensures |r| <= |s| && r == s[..|r|]
    ensures r == [] || !IsSpace(r[|r| - 1])
    ensures forall k :: |r| <= k < |s| ==> IsSpace(s[k])
  {
    if s != [] && IsSpace(s[|s| - 1]) then TrimEnd(s[..|s| - 1]) else s
  }

  /** `trim()`: the leading white space removed, then the trailing white space. What is
      kept neither starts nor ends with white space, and everything cut is white space. */
  function Trim(s: string): (r: string)
    ensures |r| <= |TrimStart(s)| <= |s|
    ensures r == TrimStart(s)[..|r|]
    ensures r == [] || (!IsSpace(r[0]) && !IsSpace(r[|r| - 1]))
    ensures forall k :: 0 <= k < |s| - |TrimStart(s)| ==> IsSpace(s[k])
    ensures forall k :: |r| <= k < |TrimStart(s)| ==> IsSpace(TrimStart(s)[k])
  {
    var t := TrimStart(s);
    var r := TrimEnd(t);
    assert r != [] ==> r[0] == t[0];
    r
  }

  /** `replace(/\s+/g, '')`: every white-space character removed, the others kept in order. */
  function RemoveSpaces(s: string): (r: string)
    ensures |r| <= |s| && NoSpace(r)
    ensures forall i :: 0 <= i < |r| ==> r[i] in s
    ensures NoSpace(s) ==> r == s
  {
    if s == [] then []
    else if IsSpace(s[0]) then RemoveSpaces(s[1..])
    else [s[0]] + RemoveSpaces(s[1..])
  }

  /** Removing white space works piece by piece. */
  lemma {:induction false} RemoveSpacesConcat(a: string, b: string)
    ensures RemoveSpaces(a + b) == RemoveSpaces(a) + RemoveSpaces(b)
  {
    if a != [] {
      assert (a + b)[0] == a[0] && (a + b)[1..] == a[1..] + b;
      RemoveSpacesConcat(a[1..], b);
    } else {
      assert a + b == b;
    }
  }

  /** `pat` occurs in `s` at index `j`. */
  predicate OccursAt(s: string, pat: string, j: int) {
    0 <= j && j + |pat| <= |s| && s[j..j + |pat|] == pat
  }

  /** `j` is the first index at which `pat` occurs in `s`. */
  predicate FirstAt(s: string, pat: string, j: int) {
    OccursAt(s, pat, j) && forall k :: 0 <= k < j ==> !OccursAt(s, pat, k)
  }

  function IndexFrom(s: string, pat: string, from: nat): (r: Option<nat>)
    ensures r.Some? ==> (from <= r.value && OccursAt(s, pat, r.value)
                         && forall k :: from <= k < r.value ==> !OccursAt(s, pat, k))
    ensures r.None? ==> forall k :: from <= k ==> !OccursAt(s, pat, k)
    decreases |s| - from
  {
    if from + |pat| > |s| then None
    else if s[from..from + |pat|] == pat then Some(from)
    else IndexFrom(s, pat, from + 1)
  }

  /** `indexOf(pat)`, with -1 as None: the first occurrence, or none at all. */
  function IndexOf(s: string, pat: string): (r: Option<nat>)
    ensures r.Some? ==> FirstAt(s, pat, r.value)
    ensures r.None? ==> forall k :: !OccursAt(s, pat, k)
  {
    IndexFrom(s, pat, 0)
  }

  /** `includes(pat)`. */
  function Contains(s: string, pat: string): (r: bool)
    ensures r <==> exists k :: OccursAt(s, pat, k)
  {
    IndexOf(s, pat).Some?
  }

  /** `split(sep)[0]` for a non-empty separator: the longest prefix in which `sep` does
      not begin, ending where the first occurrence begins or at the end of `s`. */
  function Before(s: string, sep: string): (r: string)
    requires sep != []
    ensures |r| <= |s| && r == s[..|r|]
    ensures forall k :: 0 <= k < |r| ==> !OccursAt(s, sep, k)
    ensures |r| == |s| || OccursAt(s, sep, |r|)
    ensures (forall k :: !OccursAt(s, sep, k)) ==> r == s
  {
    match IndexOf(s, sep)
    case Some(k) => s[..k]
    case None => s
  }

  /** `split(sep)[1]` for a non-empty separator: the text between the first and the
      second occurrence of `sep` (or the end), `undefined` when `sep` does not occur. */
  function SplitSecond(s: string, sep: string): (r: Option<string>)
    requires sep != []
    ensures r.None? <==> forall k :: !OccursAt(s, sep, k)
    ensures forall k :: FirstAt(s, sep, k) ==> r == Some(Before(s[k + |sep|..], sep))
  {
    match IndexOf(s, sep)
    case Some(k) => Some(Before(s[k + |sep|..], sep))
    case None => None
  }

  /** `replace(pat, rep)` with a string pattern: only the FIRST occurrence is replaced. */
  function ReplaceFirst(s: string, pat: string, rep: string): (r: string)
    ensures (forall k :: !OccursAt(s, pat, k)) ==> r == s
    ensures forall k :: FirstAt(s, pat, k) ==> r == s[..k] + rep + s[k + |pat|..]
  {
    match IndexOf(s, pat)
    case Some(k) => s[..k] + rep + s[k + |pat|..]
    case None => s
  }

  /** There is at most one first occurrence. */
  lemma FirstAtUnique(s: string, pat: string, j: int, k: int)
    requires FirstAt(s, pat, j) && FirstAt(s, pat, k)
    ensures j == k
  {
  }

  function DigitChar(d: nat): (c: char)
    requires d < 10
    ensures IsDigit(c) && c as int - '0' as int == d
  {
    ('0' as int + d) as char
  }

  /** The decimal rendering `${n}` of a non-negative integer: only digits, and no
      leading zero except for 0 itself. */
  function DecimalString(n: nat): (r: string)
    ensures |r| >= 1 && forall i :: 0 <= i < |r| ==> IsDigit(r[i])
    ensures r[0] == '0' ==> r == "0"
  {
    if n < 10 then [DigitChar(n)] else DecimalString(n / 10) + [DigitChar(n % 10)]
  }

  function DigitValue(c: char): (v: nat)
    requires IsHexDigit(c)
    ensures v < 16 && (IsDigit(c) ==> v < 10)
  {
    if IsDigit(c) then c as int - '0' as int
    else if 'a' <= c <= 'f' then c as int - 'a' as int + 10
    else c as int - 'A' as int + 10
  }

  predicate IsDigitIn(c: char, base: nat) {
    if base == 16 then IsHexDigit(c) else IsDigit(c)
  }

  /** The value of a run of digits in base 10 or 16, most significant first. */
  function DigitsValue(ds: string, base: nat): nat
    requires base == 10 || base == 16
    requires forall i :: 0 <= i < |ds| ==> IsDigitIn(ds[i], base)
  {
    if ds == [] then 0
    else
      var last := ds[|ds| - 1];
      assert IsDigitIn(last, base);
      DigitsValue(ds[..|ds| - 1], base) * base + DigitValue(last)
  }

  /** The longest prefix of digits of the given base. */
  function LeadingDigits(s: string, base: nat): (r: string)
    ensures |r| <= |s| && r == s[..|r|] && forall i :: 0 <= i < |r| ==> IsDigitIn(r[i], base)
    ensures |r| < |s| ==> !IsDigitIn(s[|r|], base)
  {
    if s != [] && IsDigitIn(s[0], base) then [s[0]] + LeadingDigits(s[1..], base) else []
  }

  /** `parseInt(s)` without a radix, with NaN as None: leading white space skipped, an
      optional sign, then hexadecimal digits after `0x`/`0X` and decimal digits
      otherwise, up to the first character that is not one. */
  function ParseInt(s: string): Option<int> {
    var t := TrimStart(s);
    var negative := t != [] && t[0] == '-';
    var u := if t != [] && (t[0] == '-' || t[0] == '+') then t[1..] else t;
    var base := if |u| >= 2 && u[0] == '0' && (u[1] == 'x' || u[1] == 'X') then 16 else 10;
    var digits := LeadingDigits(if base == 16 then u[2..] else u, base);
    if digits == [] then None
    else
      var v: int := DigitsValue(digits, base);
      Some(if negative then -v else v)
  }

  lemma {:induction false} DecimalStringValue(n: nat)
    ensures DigitsValue(DecimalString(n), 10) == n
  {
    var r := DecimalString(n);
    if n >= 10 {
      assert r[..|r| - 1] == DecimalString(n / 10);
      DecimalStringValue(n / 10);
    }
  }

  lemma {:induction false} LeadingDigitsAll(s: string, base: nat)
    requires forall i :: 0 <= i < |s| ==> IsDigitIn(s[i], base)
    ensures LeadingDigits(s, base) == s
  {
    if s != [] {
      LeadingDigitsAll(s[1..], base);
    }
  }

  /** Reading back the decimal rendering of an identifier gives the identifier: a photo
      id sent in a URL as `${id}` is found again by `parseInt`. */
  lemma ParseIntDecimalString(n: nat)
    ensures ParseInt(DecimalString(n)) == Some(n)
  {
    ParseIntDecimalPrefix(n, []);
    assert DecimalString(n) + [] == DecimalString(n);
  }

  /** `parseInt` stops at the first character after the digits: the decimal rendering
      followed by anything that does not start with a digit (nor with an `x`, which would
      turn a leading `0` into a hexadecimal prefix) reads back as the number. */
  lemma ParseIntDecimalPrefix(n: nat, rest: string)
    requires rest == [] || (!IsDigit(rest[0]) && rest[0] != 'x' && rest[0] != 'X')
    ensures ParseInt(DecimalString(n) + rest) == Some(n)
  {
    var d := DecimalString(n);
    var s := d + rest;
    assert s[0] == d[0] && !IsSpace(s[0]);
    assert TrimStart(s) == s;
    assert s[0] != '-' && s[0] != '+';
    assert d[0] == '0' ==> |s| < 2 || s[1] == rest[0];
    DigitsThenStop(d, rest);
    DecimalStringValue(n);
  }

  lemma {:induction false} DigitsThenStop(digits: string, rest: string)
    requires forall i :: 0 <= i < |digits| ==> IsDigit(digits[i])
    requires rest == [] || !IsDigit(rest[0])
    ensures LeadingDigits(digits + rest, 10) == digits
  {
    if digits == [] {
      assert digits + rest == rest;
    } else {
      assert (digits + rest)[0] == digits[0];
      assert (digits + rest)[1..] == digits[1..] + rest;
      DigitsThenStop(digits[1..], rest);
    }
  }

  /** A string without any decimal digit reads as NaN. */
  lemma ParseIntNoDigits(s: string)
    requires forall i :: 0 <= i < |s| ==> !IsDigit(s[i])
    ensures ParseInt(s) == None
  {
    var t := TrimStart(s);
    var u := if t != [] && (t[0] == '-' || t[0] == '+') then t[1..] else t;
    assert forall i :: 0 <= i < |u| ==> u[i] in s;
  }
}
