/** String helpers behind the routes and scripts: decimal formatting of ids
    and amounts (`${n}`) and its inverse (`parseInt` of a digit run), the
    whitespace `trim`, ASCII case folding, substring search and the
    code-point order SQLite's ORDER BY uses on text columns. */
module Text {

  predicate IsDigit(c: char) {
    '0' <= c <= '9'
  }

  function DigitChar(d: nat): (c: char)
    requires d < 10
    ensures IsDigit(c)
  {
    ['0', '1', '2', '3', '4', '5', '6', '7', '8', '9'][d]
  }

  function DigitValue(c: char): (d: nat)
    requires IsDigit(c)
    ensures d < 10
  {
    (c as int - '0' as int) as nat
  }

  lemma DigitRoundTrip(d: nat)
    requires d < 10
    ensures DigitValue(DigitChar(d)) == d
  {
  }

  /** Decimal text of n, without leading zeros (`${n}` for a non-negative integer). */
  function NatToString(n: nat): (s: string)
    ensures |s| >= 1
    ensures forall i :: 0 <= i < |s| ==> IsDigit(s[i])
    ensures |s| > 1 ==> s[0] != '0'
  {
    if n < 10 then [DigitChar(n)] else NatToString(n / 10) + [DigitChar(n % 10)]
  }

  predicate AllDigits(s: string) {
    forall i :: 0 <= i < |s| ==> IsDigit(s[i])
  }

  /** The value of a run of decimal digits, read left to right (`parseInt`). */
  function DigitsValue(s: string): nat
    requires AllDigits(s)
  {
    if s == [] then 0 else DigitsValue(s[..|s| - 1]) * 10 + DigitValue(s[|s| - 1])
  }

  /** Reading back the decimal text of n gives n. */
  lemma {:induction false} NatToStringRoundTrip(n: nat)
    ensures DigitsValue(NatToString(n)) == n
  {
    var s := NatToString(n);
    if n < 10 {
      assert s[..|s| - 1] == [];
      DigitRoundTrip(n);
    } else {
      assert s[..|s| - 1] == NatToString(n / 10);
      NatToStringRoundTrip(n / 10);
      DigitRoundTrip(n % 10);
    }
  }

  /** Length of the longest prefix of s made of digits. */
  function DigitRun(s: string): (k: nat)
    ensures k <= |s|
    ensures AllDigits(s[..k])
    ensures k < |s| ==> !IsDigit(s[k])
  {
    if s == [] || !IsDigit(s[0]) then 0 else 1 + DigitRun(s[1..])
  }

  /** The digit run of digits followed by a non-digit is exactly those digits. */
  lemma {:induction false} DigitRunOfDigits(d: string, rest: string)
    requires AllDigits(d)
    requires rest == [] || !IsDigit(rest[0])
    ensures DigitRun(d + rest) == |d|
  {
    if d != [] {
      assert (d + rest)[1..] == d[1..] + rest;
      DigitRunOfDigits(d[1..], rest);
    } else {
      assert d + rest == rest;
    }
  }

  /** Text after a non-digit does not lengthen a digit run. */
  lemma {:induction false} DigitRunAppend(a: string, b: string)
    requires b == [] || !IsDigit(b[0])
    ensures DigitRun(a + b) == DigitRun(a)
  {
    if a == [] {
      assert a + b == b;
    } else if IsDigit(a[0]) {
      assert (a + b)[1..] == a[1..] + b;
      DigitRunAppend(a[1..], b);
    }
  }

  /** `parseInt` of a prefix: the value of the leading digits and what follows,
      or nothing when s does not start with a digit. */
  function ParseNat(s: string): (r: Option<(nat, string)>)
    ensures r.Some? ==> |r.value.1| < |s| && r.value.1 == s[|s| - |r.value.1|..]
    ensures r.None? <==> (s == [] || !IsDigit(s[0]))
  {
    var k := DigitRun(s);
    if k == 0 then None else Some((DigitsValue(s[..k]), s[k..]))
  }

  /** Parsing the decimal text of n followed by a non-digit gives n back. */
  lemma ParseNatRoundTrip(n: nat, rest: string)
    requires rest == [] || !IsDigit(rest[0])
    ensures ParseNat(NatToString(n) + rest) == Some((n, rest))
  {
    var d := NatToString(n);
    DigitRunOfDigits(d, rest);
    assert (d + rest)[..|d|] == d;
    assert (d + rest)[|d|..] == rest;
    NatToStringRoundTrip(n);
  }

  /** An integer in decimal with a leading '-' when negative. */
  function IntToString(i: int): (s: string)
    ensures |s| >= 1
  {
    if i < 0 then "-" + NatToString(-i) else NatToString(i)
  }

  function ParseInt(s: string): (r: Option<(int, string)>)
    ensures r.Some? ==> |r.value.1| < |s|
  {
    if |s| > 0 && s[0] == '-' then
      match ParseNat(s[1..])
      case None => None
      case Some(p) => Some((-(p.0 as int), p.1))
    else
      match ParseNat(s)
      case None => None
      case Some(p) => Some((p.0 as int, p.1))
  }

  /** The negative half of the round trip: the '-' is read, then the digits. */
  lemma ParseNegativeRoundTrip(i: int, rest: string)
    requires i < 0
    requires rest == [] || !IsDigit(rest[0])
    ensures ParseInt(IntToString(i) + rest) == Some((i, rest))
  {
    var n: nat := -i;
    var d := NatToString(n);
    assert IntToString(i) == ['-'] + d;
    PrefixAppend('-', d, rest);
    NegativeParse(IntToString(i) + rest, n, rest);
  }

  /** Moving a one-character prefix past an append. */
  lemma PrefixAppend(c: char, d: string, rest: string)
    ensures ([c] + d) + rest == [c] + (d + rest)
  {
  }

  /** A '-' followed by the decimal text of n and a non-digit is read as -n. */
  lemma NegativeParse(s: string, n: nat, rest: string)
    requires rest == [] || !IsDigit(rest[0])
    requires s == ['-'] + (NatToString(n) + rest)
    ensures ParseInt(s) == Some((-(n as int), rest))
  {
    assert s[1..] == NatToString(n) + rest;
    ParseNatRoundTrip(n, rest);
  }

  /** The non-negative half of the round trip: the text starts with a digit. */
  lemma ParseNonNegativeRoundTrip(i: int, rest: string)
    requires i >= 0
    requires rest == [] || !IsDigit(rest[0])
    ensures ParseInt(IntToString(i) + rest) == Some((i, rest))
  {
    var s := IntToString(i) + rest;
    assert s[0] == NatToString(i)[0];
    assert IsDigit(s[0]);
    ParseNatRoundTrip(i, rest);
  }

  lemma ParseIntRoundTrip(i: int, rest: string)
    requires rest == [] || !IsDigit(rest[0])
    ensures ParseInt(IntToString(i) + rest) == Some((i, rest))
  {
    if i < 0 {
      ParseNegativeRoundTrip(i, rest);
    } else {
      ParseNonNegativeRoundTrip(i, rest);
    }
  }

  /** The characters `String.prototype.trim` removes: ECMAScript WhiteSpace
      and LineTerminator. */
  predicate IsSpace(c: char) {
    c == ' ' || c == '\t' || c == '\n' || c == '\r' || c == '\U{0B}' || c == '\U{0C}'
    || c == '\U{A0}' || c == '\U{1680}' || ('\U{2000}' <= c <= '\U{200A}')
    || c == '\U{2028}' || c == '\U{2029}' || c == '\U{202F}' || c == '\U{205F}'
    || c == '\U{3000}' || c == '\U{FEFF}'
  }

  predicate AllSpace(s: string) {
    forall i :: 0 <= i < |s| ==> IsSpace(s[i])
  }

  /** The index of the first non-whitespace character at or after i, or |s|. */
  function SkipSpace(s: string, i: nat): (k: nat)
    requires i <= |s|
    ensures i <= k <= |s|
    ensures forall j :: i <= j < k ==> IsSpace(s[j])
    ensures k < |s| ==> !IsSpace(s[k])
    decreases |s| - i
  {
    if i < |s| && IsSpace(s[i]) then SkipSpace(s, i + 1) else i
  }

  /** The index just past the last non-whitespace character of s[lo..j], or lo. */
  function BackSpace(s: string, lo: nat, j: nat): (k: nat)
    requires lo <= j <= |s|
    ensures lo <= k <= j
    ensures forall m :: k <= m < j ==> IsSpace(s[m])
    ensures k > lo ==> !IsSpace(s[k - 1])
    decreases j
  {
    if j > lo && IsSpace(s[j - 1]) then BackSpace(s, lo, j - 1) else j
  }

  /** What lies before SkipSpace and after BackSpace is whitespace, and the
      two meet exactly when s is all whitespace. */
  lemma TrimmedEnds(s: string)
    ensures AllSpace(s[..SkipSpace(s, 0)])
    ensures AllSpace(s[BackSpace(s, SkipSpace(s, 0), |s|)..])
    ensures BackSpace(s, SkipSpace(s, 0), |s|) == SkipSpace(s, 0) <==> AllSpace(s)
  {
    var a := SkipSpace(s, 0);
    var b := BackSpace(s, a, |s|);
    forall j | 0 <= j < a ensures IsSpace(s[..a][j]) {
      assert s[..a][j] == s[j];
    }
    forall j | 0 <= j < |s| - b ensures IsSpace(s[b..][j]) {
      assert s[b..][j] == s[b + j];
    }
    if b == a {
      forall j | 0 <= j < |s| ensures IsSpace(s[j]) { }
    }
  }

  /** `s.trim()`: the contiguous middle of s left after stripping whitespace
      from both ends. */
  function Trim(s: string): (r: string)
    ensures exists i :: 0 <= i <= |s| - |r| && r == s[i..i + |r|]
                        && AllSpace(s[..i]) && AllSpace(s[i + |r|..])
    ensures r != [] ==> !IsSpace(r[0]) && !IsSpace(r[|r| - 1])
    ensures r == [] <==> AllSpace(s)
  {
    var a := SkipSpace(s, 0);
    var b := BackSpace(s, a, |s|);
    TrimmedEnds(s);
    var r := s[a..b];
    assert r == s[a..a + |r|] && s[a + |r|..] == s[b..];
    assert r != [] ==> r[0] == s[a] && r[|r| - 1] == s[b - 1];
    r
  }

  /** Trimming twice is trimming once. */
  lemma TrimIdempotent(s: string)
    ensures Trim(Trim(s)) == Trim(s)
  {
    var r := Trim(s);
    assert SkipSpace(r, 0) == 0;
    assert BackSpace(r, 0, |r|) == |r|;
    assert r[0..|r|] == r;
  }

  /** ASCII lower-casing, the folding SQLite's LIKE applies. */
  function LowerChar(c: char): char {
    if 'A' <= c <= 'Z' then (c as int + 32) as char else c
  }

  function Lower(s: string): (r: string)
    ensures |r| == |s|
    ensures forall i :: 0 <= i < |s| ==> r[i] == LowerChar(s[i])
  {
    if s == [] then [] else [LowerChar(s[0])] + Lower(s[1..])
  }

  /** Lower-casing leaves text without capitals unchanged. */
  lemma LowerOfLowercase(s: string)
    requires forall i :: 0 <= i < |s| ==> !('A' <= s[i] <= 'Z')
    ensures Lower(s) == s
  {
  }

  /** `s.includes(sub)`: sub occurs contiguously in s (the empty string always does). */
  predicate Contains(s: string, sub: string) {
    exists i | 0 <= i <= |s| :: OccursAt(s, sub, i)
  }

  /** sub occurs in s starting at position i. */
  predicate OccursAt(s: string, sub: string, i: int) {
    0 <= i <= |s| - |sub| && s[i..i + |sub|] == sub
  }

  /** Case-insensitive substring match (`a.toLowerCase().includes(b.toLowerCase())`,
      or SQL `a LIKE '%b%'`). */
  predicate ContainsIgnoringCase(s: string, sub: string) {
    Contains(Lower(s), Lower(sub))
  }

  predicate StartsWith(s: string, prefix: string) {
    |prefix| <= |s| && s[..|prefix|] == prefix
  }

  /** The index of the last '.', or -1. */
  function LastDot(s: string): (k: int)
    ensures -1 <= k < |s|
    ensures k >= 0 ==> s[k] == '.' && forall j :: k < j < |s| ==> s[j] != '.'
    ensures k == -1 ==> forall j :: 0 <= j < |s| ==> s[j] != '.'
  {
    if s == [] then -1 else if s[|s| - 1] == '.' then |s| - 1 else LastDot(s[..|s| - 1])
  }

  /** `path.extname` of a file name without a directory part: from the
      last '.' to the end, or empty when there is no '.', when the last '.'
      is the first character (`.png`), or for the name `..`. So `..png`
      has the extension `.png` and `a.` the extension `.`. */
  function Extname(name: string): string {
    var k := LastDot(name);
    if k <= 0 || name == ".." then "" else name[k..]
  }

  /** An extension is empty or a suffix of the name that starts with its
      only '.'. */
  lemma ExtnameIsSuffix(name: string)
    ensures var e := Extname(name);
            (e == [] || (e[0] == '.' && forall j :: 1 <= j < |e| ==> e[j] != '.'))
            && |e| <= |name| && e == name[|name| - |e|..]
  {
  }

  /** The extension of `base.tail`, for a tail without dots after a
      non-empty base, is `.tail`; only the name `..` is an exception. */
  lemma ExtnameOfTail(base: string, tail: string)
    requires base != [] && !(base == "." && tail == [])
    requires forall j :: 0 <= j < |tail| ==> tail[j] != '.'
    ensures Extname(base + "." + tail) == "." + tail
  {
    var name := base + "." + tail;
    var k := LastDot(name);
    assert name[|base|] == '.';
    assert forall j :: |base| < j < |name| ==> name[j] == tail[j - |base| - 1];
    assert k == |base|;
    assert name[..k] == base;
    assert name[k..] == "." + tail;
  }

  /** Code-point lexicographic order on strings. */
  predicate LexLe(a: string, b: string)
    decreases |a|
  {
    if a == [] then true
    else if b == [] then false
    else if a[0] != b[0] then a[0] < b[0]
    else LexLe(a[1..], b[1..])
  }

  lemma {:induction false} LexLeTotal(a: string, b: string)
    ensures LexLe(a, b) || LexLe(b, a)
    decreases |a|
  {
    if a != [] && b != [] && a[0] == b[0] {
      LexLeTotal(a[1..], b[1..]);
    }
  }

  lemma {:induction false} LexLeTransitive(a: string, b: string, c: string)
    requires LexLe(a, b) && LexLe(b, c)
    ensures LexLe(a, c)
    decreases |a|
  {
    if a != [] && b != [] && c != [] && a[0] == b[0] && b[0] == c[0] {
      LexLeTransitive(a[1..], b[1..], c[1..]);
    }
  }

  lemma {:induction false} LexLeAntisymmetric(a: string, b: string)
    requires LexLe(a, b) && LexLe(b, a)
    ensures a == b
    decreases |a|
  {
    if a != [] && b != [] {
      LexLeAntisymmetric(a[1..], b[1..]);
      assert a == [a[0]] + a[1..];
      assert b == [b[0]] + b[1..];
    }
  }

  import opened Common
}
