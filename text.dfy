/**
 * String helpers shared by the whole model: Python's `str.strip()`, the
 * regular-expression test `re.search(r"\S", s)`, prefix and substring tests,
 * decimal rendering of token ids and the comma-joined path keys by which the
 * tree explorer addresses a node across requests.
 */
module Text {

  /** The characters Python's `str.isspace()` (and the regex class `\s`) accept. */
  predicate IsSpace(c: char) {
    c == ' ' || c == '\t' || c == '\n' || c == '\r' || c == '\U{0B}' || c == '\U{0C}'
    || ('\U{1C}' <= c <= '\U{1F}') || c == '\U{85}' || c == '\U{A0}' || c == '\U{1680}'
    || ('\U{2000}' <= c <= '\U{200A}') || c == '\U{2028}' || c == '\U{2029}'
    || c == '\U{202F}' || c == '\U{205F}' || c == '\U{3000}'
  }

  /** A string with no non-whitespace character: `not re.search(r"\S", s)`. */
  predicate IsBlank(s: string) {
    forall i :: 0 <= i < |s| ==> IsSpace(s[i])
  }

  /** Drops leading whitespace (`str.lstrip()`). */
  function TrimLeft(s: string): (r: string)
    ensures |r| <= |s|
    ensures r != [] ==> !IsSpace(r[0])
  {
    if s != [] && IsSpace(s[0]) then TrimLeft(s[1..]) else s
  }

  /** Drops trailing whitespace (`str.rstrip()`). */
  function TrimRight(s: string): (r: string)
    ensures |r| <= |s|
    ensures r != [] ==> !IsSpace(r[|r| - 1]) && r[0] == s[0]
  {
    if s != [] && IsSpace(s[|s| - 1]) then TrimRight(s[..|s| - 1]) else s
  }

  /** `lstrip` removes a blank prefix and keeps the rest as it was. */
  lemma {:induction false} TrimLeftRemovesBlankPrefix(s: string)
    ensures var r := TrimLeft(s);
      r == s[|s| - |r|..] && IsBlank(s[..|s| - |r|])
  {
    if s != [] && IsSpace(s[0]) {
      TrimLeftRemovesBlankPrefix(s[1..]);
      var r := TrimLeft(s);
      assert s[..|s| - |r|] == [s[0]] + s[1..][..|s| - 1 - |r|];
    }
  }

  /** `rstrip` removes a blank suffix and keeps the rest as it was. */
  lemma {:induction false} TrimRightRemovesBlankSuffix(s: string)
    ensures var r := TrimRight(s);
      r == s[..|r|] && IsBlank(s[|r|..])
  {
    if s != [] && IsSpace(s[|s| - 1]) {
      TrimRightRemovesBlankSuffix(s[..|s| - 1]);
      var r := TrimRight(s);
      assert s[|r|..] == s[..|s| - 1][|r|..] + [s[|s| - 1]];
    }
  }

  /** Python's `str.strip()`. */
  function Strip(s: string): (r: string)
    ensures |r| <= |s|
    ensures r != [] ==> !IsSpace(r[0]) && !IsSpace(r[|r| - 1])
  {
    TrimRight(TrimLeft(s))
  }

  /** `s.strip()` is empty exactly when `s` holds no non-whitespace character. */
  lemma StripEmptyIffBlank(s: string)
    ensures Strip(s) == [] <==> IsBlank(s)
  {
    var l := TrimLeft(s);
    TrimLeftRemovesBlankPrefix(s);
    TrimRightRemovesBlankSuffix(l);
    if l == [] {
      assert s[..|s|] == s;
    } else {
      assert !IsBlank(l) by { assert !IsSpace(l[0]); }
      assert !IsSpace(s[|s| - |l|]);
    }
  }

  /** A string that starts and ends with a non-whitespace character is its own strip. */
  lemma StripIdentity(s: string)
    requires s != [] && !IsSpace(s[0]) && !IsSpace(s[|s| - 1])
    ensures Strip(s) == s
  {
  }

  /** Stripping twice is stripping once. */
  lemma StripIdempotent(s: string)
    ensures Strip(Strip(s)) == Strip(s)
  {
    var r := Strip(s);
    if r != [] {
      StripIdentity(r);
    }
  }

  /** Non-empty text with no outer whitespace: exactly the strings that are their own non-empty strip. */
  predicate IsTrimmed(s: string) {
    s != [] && !IsSpace(s[0]) && !IsSpace(s[|s| - 1])
  }

  lemma TrimmedIffOwnStrip(s: string)
    ensures IsTrimmed(s) <==> s != [] && Strip(s) == s
  {
    if IsTrimmed(s) {
      StripIdentity(s);
    }
  }

  predicate StartsWith(s: string, p: string) {
    |p| <= |s| && s[..|p|] == p
  }

  predicate EndsWith(s: string, p: string) {
    |p| <= |s| && s[|s| - |p|..] == p
  }

  /** An initial part of an initial part is an initial part. */
  lemma StartsWithTransitive(s: string, t: string, p: string)
    requires StartsWith(s, t) && StartsWith(t, p)
    ensures StartsWith(s, p)
  {
    assert s[..|p|] == s[..|t|][..|p|];
  }

  /** `sub in s` for strings. */
  predicate Contains(s: string, sub: string)
    decreases |s|
  {
    StartsWith(s, sub) || (s != [] && Contains(s[1..], sub))
  }

  /** `s.replace(c, "")` for a single character. */
  function RemoveChar(s: string, c: char): (r: string)
    ensures c !in r
    ensures |r| <= |s|
    ensures forall x :: x != c ==> multiset(r)[x] == multiset(s)[x]
  {
    if s == [] then []
    else
      assert s == [s[0]] + s[1..];
      (if s[0] == c then [] else [s[0]]) + RemoveChar(s[1..], c)
  }

  /** `sep.join(parts)`. */
  function Join(parts: seq<string>, sep: string): string {
    if parts == [] then ""
    else if |parts| == 1 then parts[0]
    else parts[0] + sep + Join(parts[1..], sep)
  }

  // ---------------------------------------------------------------------
  // Decimal rendering of natural numbers (Python `str(n)`, JS `n.toString()`)
  // ---------------------------------------------------------------------

  predicate IsDigit(c: char) {
    '0' <= c <= '9'
  }

  predicate AllDigits(s: string) {
    forall i :: 0 <= i < |s| ==> IsDigit(s[i])
  }

  function DigitChar(d: nat): (c: char)
    requires d < 10
    ensures IsDigit(c) && (c as int) - ('0' as int) == d
  {
    ['0', '1', '2', '3', '4', '5', '6', '7', '8', '9'][d]
  }

  function DigitValue(c: char): nat
    requires IsDigit(c)
  {
    (c as int) - ('0' as int)
  }

  function NatToString(n: nat): (r: string)
    ensures r != [] && AllDigits(r)
  {
    if n < 10 then [DigitChar(n)] else NatToString(n / 10) + [DigitChar(n % 10)]
  }

  /** Reads a decimal digit string back (the inverse of NatToString). */
  function ParseNat(s: string): nat
    requires AllDigits(s)
  {
    if s == [] then 0 else ParseNat(s[..|s| - 1]) * 10 + DigitValue(s[|s| - 1])
  }

  lemma {:induction false} ParseNatToString(n: nat)
    ensures ParseNat(NatToString(n)) == n
  {
    if n >= 10 {
      var r := NatToString(n);
      assert r[..|r| - 1] == NatToString(n / 10);
      ParseNatToString(n / 10);
    }
  }

  lemma NatToStringInjective(a: nat, b: nat)
    requires NatToString(a) == NatToString(b)
    ensures a == b
  {
    ParseNatToString(a);
    ParseNatToString(b);
  }

  // ---------------------------------------------------------------------
  // Path keys: ",".join(map(str, path)) / path.join(',')
  // ---------------------------------------------------------------------

  function PathKey(ids: seq<nat>): (r: string)
    ensures ids != [] ==> r != []
    ensures ',' !in r ==> |ids| <= 1
  {
    if ids == [] then ""
    else if |ids| == 1 then NatToString(ids[0])
    else NatToString(ids[0]) + "," + PathKey(ids[1..])
  }

  /** The text of `s` before its first comma (all of `s` when there is none). */
  function FirstField(s: string): (r: string)
    ensures |r| <= |s| && r == s[..|r|] && ',' !in r
    ensures |r| < |s| ==> s[|r|] == ','
  {
    if s == [] || s[0] == ',' then "" else [s[0]] + FirstField(s[1..])
  }

  /** Splits a path key back into the token ids it lists. */
  function ParseKey(s: string): seq<nat>
    decreases |s|
  {
    var f := FirstField(s);
    if !AllDigits(f) then []
    else if |f| == |s| then [ParseNat(f)]
    else [ParseNat(f)] + ParseKey(s[|f| + 1..])
  }

  lemma {:induction false} FirstFieldOfDigits(d: string, rest: string)
    requires AllDigits(d)
    ensures FirstField(d + rest) == d + FirstField(rest)
  {
    if d != [] {
      assert (d + rest)[0] == d[0] && IsDigit(d[0]);
      assert (d + rest)[1..] == d[1..] + rest;
      assert (d + rest)[0] != ',';
      assert FirstField(d + rest) == [d[0]] + FirstField(d[1..] + rest);
      FirstFieldOfDigits(d[1..], rest);
      assert d == [d[0]] + d[1..];
    } else {
      assert d + rest == rest;
    }
  }

  /** Reading a key back yields the path it was built from: the key is a faithful identifier. */
  lemma {:induction false} ParseKeyRoundTrip(ids: seq<nat>)
    requires ids != []
    ensures ParseKey(PathKey(ids)) == ids
  {
    var d := NatToString(ids[0]);
    ParseNatToString(ids[0]);
    if |ids| == 1 {
      FirstFieldOfDigits(d, "");
      assert d + "" == d;
    } else {
      var rest := PathKey(ids[1..]);
      var s := d + "," + rest;
      assert s == d + ("," + rest);
      FirstFieldOfDigits(d, "," + rest);
      assert FirstField(s) == d;
      assert s[|d| + 1..] == rest;
      ParseKeyRoundTrip(ids[1..]);
    }
  }

  /** Distinct paths have distinct keys. */
  lemma PathKeyInjective(a: seq<nat>, b: seq<nat>)
    requires PathKey(a) == PathKey(b)
    ensures a == b
  {
    if a != [] && b != [] {
      ParseKeyRoundTrip(a);
      ParseKeyRoundTrip(b);
    }
  }

  // ---------------------------------------------------------------------
  // Reserved control tokens
  // ---------------------------------------------------------------------

  const Me := "<|Me|>"
  const Them := "<|Them|>"
  const EndOfText := "<|endoftext|>"
  const ConversationStart := "<|ConversationStart|>"
}
