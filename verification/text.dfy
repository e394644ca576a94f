/** String helpers with Python's semantics: `str.strip`, `startswith`,
    `endswith`, prefix slicing `s[:n]`, `"\n".join`, `str.split("\n")` and
    `str(int)`. */
module Text {

  /** Python's `str.isspace` for one character: the characters `str.strip()`
      with no argument removes. */
  predicate IsSpace(c: char) {
    || c == ' ' || ('\t' <= c <= '\r') || ('\U{1C}' <= c <= '\U{1F}')
    || c == '\U{85}' || c == '\U{A0}' || c == '\U{1680}'
    || ('\U{2000}' <= c <= '\U{200A}') || c == '\U{2028}' || c == '\U{2029}'
    || c == '\U{202F}' || c == '\U{205F}' || c == '\U{3000}'
  }

  predicate AllSpace(s: string) {
    forall i :: 0 <= i < |s| ==> IsSpace(s[i])
  }

  /** A string with no whitespace at either end: what `strip()` returns. */
  predicate IsStripped(s: string) {
    |s| == 0 || (!IsSpace(s[0]) && !IsSpace(s[|s| - 1]))
  }

  /** Number of whitespace characters at the front of `s`. */
  function LeadingSpace(s: string): (n: nat)
    ensures n <= |s|
    ensures AllSpace(s[..n])
    ensures n < |s| ==> !IsSpace(s[n])
  {
    if |s| > 0 && IsSpace(s[0]) then 1 + LeadingSpace(s[1..]) else 0
  }

  /** Length of `s` without its trailing whitespace. */
  function TrailingStart(s: string): (n: nat)
    ensures n <= |s|
    ensures AllSpace(s[n..])
    ensures 0 < n ==> !IsSpace(s[n - 1])
  {
    if |s| > 0 && IsSpace(s[|s| - 1]) then TrailingStart(s[..|s| - 1]) else |s|
  }

  /** Python's `s.strip()`. */
  function Strip(s: string): (r: string)
    ensures IsStripped(r)
    ensures |r| <= |s|
  {
    var rest := s[LeadingSpace(s)..];
    rest[..TrailingStart(rest)]
  }

  function StartsWith(s: string, prefix: string): bool {
    |prefix| <= |s| && s[..|prefix|] == prefix
  }

  function EndsWith(s: string, suffix: string): bool {
    |suffix| <= |s| && s[|s| - |suffix|..] == suffix
  }

  /** Python's `s[:n]` for any integer `n` (a negative `n` drops `-n`
      elements from the end). */
  function Take<T>(s: seq<T>, n: int): (r: seq<T>)
    ensures 0 <= n ==> |r| == if n < |s| then n else |s|
    ensures n < 0 ==> |r| == if |s| + n < 0 then 0 else |s| + n
    ensures r <= s
  {
    if n >= |s| then s
    else if n >= 0 then s[..n]
    else if |s| + n <= 0 then []
    else s[..|s| + n]
  }

  /** Python's `"\n".join(lines)`. */
  function JoinLines(lines: seq<string>): string
  {
    if |lines| == 0 then ""
    else if |lines| == 1 then lines[0]
    else lines[0] + "\n" + JoinLines(lines[1..])
  }

  /** Python's `s.split("\n")`: the pieces between newlines, always at
      least one. */
  function SplitLines(s: string): (r: seq<string>)
    ensures |r| >= 1
    decreases |s|
  {
    if '\n' !in s then [s]
    else
      var i := FirstNewline(s);
      [s[..i]] + SplitLines(s[i + 1..])
  }

  /** Index of the first newline in `s`. */
  function FirstNewline(s: string): (i: nat)
    requires '\n' in s
    ensures i < |s| && s[i] == '\n' && '\n' !in s[..i]
  {
    if s[0] == '\n' then 0
    else
      assert '\n' in s[1..] by {
        var k :| 0 <= k < |s| && s[k] == '\n';
        assert s[1..][k - 1] == '\n';
      }
      var j := FirstNewline(s[1..]);
      assert s[..j + 1] == [s[0]] + s[1..][..j];
      j + 1
  }

  predicate NoNewline(s: string) {
    '\n' !in s
  }

  /** Joining lines that contain no newline and splitting the result again
      gives the same lines back. */
  lemma {:induction false} SplitJoinLines(lines: seq<string>)
    requires |lines| >= 1
    requires forall k :: 0 <= k < |lines| ==> NoNewline(lines[k])
    ensures SplitLines(JoinLines(lines)) == lines
  {
    if |lines| == 1 {
      assert JoinLines(lines) == lines[0];
    } else {
      var s := JoinLines(lines);
      var rest := JoinLines(lines[1..]);
      assert s == lines[0] + "\n" + rest;
      assert s[|lines[0]|] == '\n';
      assert '\n' in s;
      var i := FirstNewline(s);
      assert s[..|lines[0]|] == lines[0];
      assert i == |lines[0]|;
      assert s[..i] == lines[0];
      assert s[i + 1..] == rest;
      SplitJoinLines(lines[1..]);
    }
  }

  /** Decimal digits of a natural number, most significant first. */
  function NatToDecimal(n: nat): (r: string)
    ensures |r| >= 1
    ensures AllDigits(r)
    ensures r[0] == '0' ==> n == 0
  {
    if n < 10 then [Digit(n)] else NatToDecimal(n / 10) + [Digit(n % 10)]
  }

  function Digit(d: nat): (c: char)
    requires d < 10
    ensures '0' <= c <= '9'
    ensures c as int - '0' as int == d
  {
    "0123456789"[d]
  }

  predicate AllDigits(s: string) {
    forall k :: 0 <= k < |s| ==> '0' <= s[k] <= '9'
  }

  /** Value of a string of decimal digits. */
  function DecimalValue(s: string): nat
    requires AllDigits(s)
  {
    if |s| == 0 then 0 else 10 * DecimalValue(s[..|s| - 1]) + (s[|s| - 1] as int - '0' as int)
  }

  /** Python's `str(i)` for an `int`: a minus sign for a negative number,
      then the digits of its magnitude without leading zeros. */
  function IntToDecimal(i: int): (r: string)
    ensures |r| >= 1
    ensures (r[0] == '-') <==> i < 0
    ensures i >= 0 ==> AllDigits(r) && DecimalValue(r) == i && (r[0] == '0' ==> |r| == 1)
    ensures i < 0 ==> |r| >= 2 && AllDigits(r[1..]) && DecimalValue(r[1..]) == -i && r[1] != '0'
  {
    if i < 0 then
      DecimalRoundTrip(-i);
      assert ("-" + NatToDecimal(-i))[1..] == NatToDecimal(-i);
      "-" + NatToDecimal(-i)
    else
      DecimalRoundTrip(i);
      NatToDecimal(i)
  }

  /** Reading back the decimal rendering gives the number. */
  lemma {:induction false} DecimalRoundTrip(n: nat)
    ensures DecimalValue(NatToDecimal(n)) == n
  {
    if n >= 10 {
      var r := NatToDecimal(n);
      DecimalRoundTrip(n / 10);
      assert r[..|r| - 1] == NatToDecimal(n / 10);
      assert r[|r| - 1] == Digit(n % 10);
    }
  }


  /** `r` is a contiguous piece of `s`. */
  predicate IsSlice(r: string, s: string) {
    exists i, j :: 0 <= i <= j <= |s| && r == s[i..j]
  }

  lemma SliceOf(s: string, i: int, j: int)
    requires 0 <= i <= j <= |s|
    ensures IsSlice(s[i..j], s)
  {
  }

  lemma SliceTrans(a: string, b: string, c: string)
    requires IsSlice(a, b) && IsSlice(b, c)
    ensures IsSlice(a, c)
  {
    var i, j :| 0 <= i <= j <= |b| && a == b[i..j];
    var k, l :| 0 <= k <= l <= |c| && b == c[k..l];
    assert a == c[k + i..k + j] by {
      assert |a| == j - i;
      forall n | 0 <= n < |a|
        ensures a[n] == c[k + i + n]
      {
        assert a[n] == b[i + n];
      }
    }
  }

  /** `strip()` keeps one contiguous piece and removes only whitespace. */
  lemma StripIsSlice(s: string)
    ensures IsSlice(Strip(s), s)
    ensures exists i, j :: 0 <= i <= j <= |s| && Strip(s) == s[i..j] && AllSpace(s[..i]) && AllSpace(s[j..])
  {
    var i := LeadingSpace(s);
    var rest := s[i..];
    var j := TrailingStart(rest);
    assert rest[..j] == s[i..i + j];
    assert rest[j..] == s[i + j..];
    assert forall k :: 0 <= k < i + j ==> k < i || s[k] == rest[k - i];
    SliceOf(s, i, i + j);
  }

  /** Python's `s[len(p):] if s.startswith(p) else s`. */
  function DropPrefix(s: string, p: string): (r: string)
    ensures IsSlice(r, s)
    ensures StartsWith(s, p) ==> s == p + r
    ensures !StartsWith(s, p) ==> r == s
  {
    if StartsWith(s, p) then
      SliceOf(s, |p|, |s|);
      assert s == s[..|p|] + s[|p|..];
      s[|p|..]
    else
      SliceOf(s, 0, |s|);
      s
  }

  /** Python's `s[:-len(p)] if s.endswith(p) else s`. */
  function DropSuffix(s: string, p: string): (r: string)
    ensures IsSlice(r, s)
    ensures EndsWith(s, p) ==> s == r + p
    ensures !EndsWith(s, p) ==> r == s
  {
    if EndsWith(s, p) then
      SliceOf(s, 0, |s| - |p|);
      assert s == s[..|s| - |p|] + s[|s| - |p|..];
      s[..|s| - |p|]
    else
      SliceOf(s, 0, |s|);
      s
  }

  lemma {:induction false} LeadingSpaceOf(a: string, t: string)
    requires AllSpace(a)
    requires |t| == 0 || !IsSpace(t[0])
    ensures LeadingSpace(a + t) == |a|
  {
    if |a| > 0 {
      assert (a + t)[1..] == a[1..] + t;
      LeadingSpaceOf(a[1..], t);
    } else {
      assert a + t == t;
    }
  }

  lemma {:induction false} TrailingStartOf(t: string, b: string)
    requires AllSpace(b)
    requires |t| == 0 || !IsSpace(t[|t| - 1])
    ensures TrailingStart(t + b) == |t|
  {
    if |b| > 0 {
      assert (t + b)[..|t + b| - 1] == t + b[..|b| - 1];
      TrailingStartOf(t, b[..|b| - 1]);
    } else {
      assert t + b == t;
    }
  }

  /** Stripping removes exactly the surrounding whitespace of an already
      stripped text. */
  lemma StripWrapped(a: string, t: string, b: string)
    requires AllSpace(a) && AllSpace(b) && IsStripped(t)
    ensures Strip(a + t + b) == t
  {
    var s := a + t + b;
    if |t| == 0 {
      assert s == a + b;
      assert AllSpace(s);
      LeadingSpaceOf(s, "");
      assert s + "" == s;
      assert s[|s|..] == "";
      assert TrailingStart("") == 0;
    } else {
      assert s == a + (t + b);
      LeadingSpaceOf(a, t + b);
      assert s[|a|..] == t + b;
      TrailingStartOf(t, b);
      assert (t + b)[..|t|] == t;
    }
  }

  /** `strip()` leaves a stripped text unchanged, so it is idempotent. */
  lemma StripStripped(t: string)
    requires IsStripped(t)
    ensures Strip(t) == t
  {
    StripWrapped("", t, "");
    assert "" + t + "" == t;
  }
}
