/** String operations the story generator relies on: Python's `str.strip()`,
    `", ".join(...)`, the decimal rendering of an `int` inside an f-string,
    and the substring relation the prompt properties are stated with. */
module Text {

  /** Python's `str.isspace()` set, which `str.strip()` with no argument removes:
      U+0009..U+000D, U+001C..U+001F, U+0020, U+0085, U+00A0, U+1680,
      U+2000..U+200A, U+2028, U+2029, U+202F, U+205F, U+3000. */
  predicate IsSpace(c: char) {
    || ('\t' <= c <= '\r')
    || ('\U{1C}' <= c <= '\U{1F}')
    || c == ' '
    || c == '\U{85}'
    || c == '\U{A0}'
    || c == '\U{1680}'
    || ('\U{2000}' <= c <= '\U{200A}')
    || c == '\U{2028}'
    || c == '\U{2029}'
    || c == '\U{202F}'
    || c == '\U{205F}'
    || c == '\U{3000}'
  }

  /** Every character of `s[lo..hi]` is whitespace. */
  predicate SpaceRun(s: string, lo: nat, hi: nat) {
    forall k :: lo <= k < hi && k < |s| ==> IsSpace(s[k])
  }

  predicate AllSpace(s: string) {
    SpaceRun(s, 0, |s|)
  }

  /** The index `s.lstrip()` starts at, looking from `i`: the first
      non-space character at or after `i`, or the end. */
  function SkipSpace(s: string, i: nat): (r: nat)
    requires i <= |s|
    ensures i <= r <= |s| && SpaceRun(s, i, r)
    ensures r < |s| ==> !IsSpace(s[r])
    decreases |s| - i
  {
    if i < |s| && IsSpace(s[i]) then SkipSpace(s, i + 1) else i
  }

  /** The index `s.rstrip()` ends at, looking back from `j` no further than
      `lo`: just after the last non-space character, or `lo`. */
  function SkipSpaceBack(s: string, lo: nat, j: nat): (r: nat)
    requires lo <= j <= |s|
    ensures lo <= r <= j && SpaceRun(s, r, j)
    ensures lo < r ==> !IsSpace(s[r - 1])
    decreases j
  {
    if lo < j && IsSpace(s[j - 1]) then SkipSpaceBack(s, lo, j - 1) else j
  }

  /** Python's `s.strip()`: `s` without its leading and trailing whitespace,
      the slice `s[start..end]` between the bounds found above. */
  function Strip(s: string): string {
    var start := SkipSpace(s, 0);
    s[start..SkipSpaceBack(s, start, |s|)]
  }

  /** `SkipSpace` stops at the first non-space character. */
  lemma {:induction false} SkipSpaceAt(s: string, i: nat, m: nat)
    requires i <= m <= |s| && SpaceRun(s, i, m)
    requires m < |s| ==> !IsSpace(s[m])
    ensures SkipSpace(s, i) == m
    decreases m - i
  {
    if i < m {
      SkipSpaceAt(s, i + 1, m);
    }
  }

  /** `SkipSpaceBack` stops just after the last non-space character. */
  lemma {:induction false} SkipSpaceBackAt(s: string, lo: nat, m: nat, j: nat)
    requires lo <= m <= j <= |s| && SpaceRun(s, m, j)
    requires lo < m ==> !IsSpace(s[m - 1])
    ensures SkipSpaceBack(s, lo, j) == m
    decreases j
  {
    if m < j {
      SkipSpaceBackAt(s, lo, m, j - 1);
    }
  }

  /** A slice `s[i..j]` that has only whitespace outside it and no whitespace at
      either of its ends is exactly `Strip(s)`: the strip is unique. */
  lemma StripUnique(s: string, i: nat, j: nat)
    requires i <= j <= |s|
    requires SpaceRun(s, 0, i) && SpaceRun(s, j, |s|)
    requires i < j ==> !IsSpace(s[i]) && !IsSpace(s[j - 1])
    ensures Strip(s) == s[i..j]
  {
    if i < j {
      SkipSpaceAt(s, 0, i);
      SkipSpaceBackAt(s, i, j, |s|);
    } else {
      assert SpaceRun(s, 0, |s|);
      SkipSpaceAt(s, 0, |s|);
      SkipSpaceBackAt(s, |s|, |s|, |s|);
    }
  }

  /** What `Strip` leaves has no whitespace at either end. */
  lemma StripEnds(s: string)
    ensures Strip(s) != [] ==> !IsSpace(Strip(s)[0]) && !IsSpace(Strip(s)[|Strip(s)| - 1])
  {
    var start := SkipSpace(s, 0);
    var end := SkipSpaceBack(s, start, |s|);
    if start < end {
      assert Strip(s)[0] == s[start];
      assert Strip(s)[|Strip(s)| - 1] == s[end - 1];
    }
  }

  /** Stripping twice is stripping once. */
  lemma StripIdempotent(s: string)
    ensures Strip(Strip(s)) == Strip(s)
  {
    var r := Strip(s);
    StripEnds(s);
    StripUnique(r, 0, |r|);
    assert r[0..|r|] == r;
  }

  /** Whitespace wrapped round a text that starts and ends with a non-space
      character strips back to that text. */
  lemma StripPadded(pre: string, t: string, post: string)
    requires AllSpace(pre) && AllSpace(post)
    requires t != [] ==> !IsSpace(t[0]) && !IsSpace(t[|t| - 1])
    ensures Strip(pre + t + post) == t
  {
    var s := pre + t + post;
    var i, j := |pre|, |pre| + |t|;
    forall k | 0 <= k < i ensures IsSpace(s[k]) {
      assert s[k] == pre[k];
    }
    forall k | j <= k < |s| ensures IsSpace(s[k]) {
      assert s[k] == post[k - j];
    }
    if t != [] {
      assert s[i] == t[0] && s[j - 1] == t[|t| - 1];
    }
    StripUnique(s, i, j);
    assert s[i..j] == t;
  }

  /** `part` occurs in `s` as a contiguous substring (Python's `part in s`). */
  ghost predicate Contains(s: string, part: string) {
    exists k :: 0 <= k <= |s| && part <= s[k..]
  }

  lemma ContainsInfix(a: string, x: string, b: string)
    ensures Contains(a + x + b, x)
  {
    assert x <= (a + x + b)[|a|..];
  }

  /** The concatenation of the pieces of an f-string: its literal segments and
      the values interpolated between them. */
  function Concat(parts: seq<string>): string {
    if parts == [] then "" else parts[0] + Concat(parts[1..])
  }

  lemma {:induction false} ConcatSplit(parts: seq<string>, i: nat)
    requires i <= |parts|
    ensures Concat(parts) == Concat(parts[..i]) + Concat(parts[i..])
  {
    if i > 0 {
      ConcatSplit(parts[1..], i - 1);
      assert parts[1..][..i - 1] == parts[..i][1..];
      assert parts[1..][i - 1..] == parts[i..];
    }
  }

  /** Every run of consecutive pieces appears, joined, in the whole. */
  lemma ConcatSlice(parts: seq<string>, i: nat, j: nat)
    requires i <= j <= |parts|
    ensures Contains(Concat(parts), Concat(parts[i..j]))
  {
    ConcatSplit(parts, j);
    ConcatSplit(parts[..j], i);
    assert parts[..j][..i] == parts[..i];
    assert parts[..j][i..] == parts[i..j];
    ContainsInfix(Concat(parts[..i]), Concat(parts[i..j]), Concat(parts[j..]));
  }

  /** A run of one, two or three pieces joins to their concatenation. */
  lemma ConcatShort(q: seq<string>)
    requires 1 <= |q| <= 3
    ensures |q| == 1 ==> Concat(q) == q[0]
    ensures |q| == 2 ==> Concat(q) == q[0] + q[1]
    ensures |q| == 3 ==> Concat(q) == q[0] + q[1] + q[2]
  {
    assert Concat(q[|q|..]) == "";
    if |q| > 1 {
      assert q[1..][1..] == q[2..];
    }
    if |q| > 2 {
      assert q[2..][1..] == q[3..];
    }
  }

  lemma ConcatPiece(parts: seq<string>, i: nat)
    requires i < |parts|
    ensures Contains(Concat(parts), parts[i])
  {
    ConcatSlice(parts, i, i + 1);
    ConcatShort(parts[i..i + 1]);
  }

  lemma ConcatPair(parts: seq<string>, i: nat)
    requires i + 1 < |parts|
    ensures Contains(Concat(parts), parts[i] + parts[i + 1])
  {
    ConcatSlice(parts, i, i + 2);
    ConcatShort(parts[i..i + 2]);
  }

  lemma ConcatTriple(parts: seq<string>, i: nat)
    requires i + 2 < |parts|
    ensures Contains(Concat(parts), parts[i] + parts[i + 1] + parts[i + 2])
  {
    ConcatSlice(parts, i, i + 3);
    ConcatShort(parts[i..i + 3]);
  }

  /** `sep.join(xs)`. */
  function Join(sep: string, xs: seq<string>): string {
    if |xs| == 0 then ""
    else if |xs| == 1 then xs[0]
    else xs[0] + sep + Join(sep, xs[1..])
  }

  /** Every joined item appears in the joined string. */
  lemma {:induction false} JoinContains(sep: string, xs: seq<string>, k: nat)
    requires k < |xs|
    ensures Contains(Join(sep, xs), xs[k])
  {
    if |xs| == 1 {
      ContainsInfix("", xs[0], "");
      assert "" + xs[0] + "" == xs[0];
    } else if k == 0 {
      ContainsInfix("", xs[0], sep + Join(sep, xs[1..]));
      assert "" + xs[0] + (sep + Join(sep, xs[1..])) == Join(sep, xs);
    } else {
      JoinContains(sep, xs[1..], k - 1);
      var j := Join(sep, xs[1..]);
      var p := xs[0] + sep;
      var m :| 0 <= m <= |j| && xs[k] <= j[m..];
      assert Join(sep, xs) == p + j;
      assert (p + j)[|p| + m..] == j[m..];
    }
  }

  /** A labelled line `heading + ", ".join(xs) + "\n"` contains every item. */
  lemma LabelledJoinContains(heading: string, xs: seq<string>, k: nat)
    requires k < |xs|
    ensures Contains(heading + Join(", ", xs) + "\n", xs[k])
  {
    var j := Join(", ", xs);
    JoinContains(", ", xs, k);
    var m :| 0 <= m <= |j| && xs[k] <= j[m..];
    assert (heading + j + "\n")[|heading| + m..] == j[m..] + "\n";
  }

  /** Containment is transitive. */
  lemma ContainsTransitive(s: string, t: string, u: string)
    requires Contains(s, t) && Contains(t, u)
    ensures Contains(s, u)
  {
    var i :| 0 <= i <= |s| && t <= s[i..];
    var j :| 0 <= j <= |t| && u <= t[j..];
    forall n | 0 <= n < |u| ensures u[n] == s[i + j + n] {
      assert u[n] == t[j..][n] == t[j + n];
      assert t[j + n] == s[i..][j + n];
    }
    assert u <= s[i + j..];
  }

  /** The length of a join: the items plus one separator between each pair. */
  lemma {:induction false} JoinLength(sep: string, xs: seq<string>, total: nat)
    requires xs != []
    requires total == |Concat(xs)|
    ensures |Join(sep, xs)| == total + (|xs| - 1) * |sep|
  {
    if |xs| > 1 {
      JoinLength(sep, xs[1..], |Concat(xs[1..])|);
    }
  }

  predicate IsDigit(c: char) {
    '0' <= c <= '9'
  }

  function DigitChar(d: nat): (c: char)
    requires d < 10
    ensures IsDigit(c) && c as int - '0' as int == d
  {
    (d + '0' as int) as char
  }

  /** The decimal text Python prints for a non-negative `int` (`f"{n}"`):
      digits only, no leading zero except for 0 itself. */
  function Decimal(n: nat): (r: string)
    ensures r != [] && (|r| > 1 ==> r[0] != '0')
    ensures forall i :: 0 <= i < |r| ==> IsDigit(r[i])
  {
    if n < 10 then [DigitChar(n)] else Decimal(n / 10) + [DigitChar(n % 10)]
  }

  /** The value of a string of decimal digits (the partner of `Decimal`). */
  function DecimalValue(s: string): nat
    requires forall i :: 0 <= i < |s| ==> IsDigit(s[i])
  {
    if s == [] then 0
    else
      assert IsDigit(s[|s| - 1]);
      DecimalValue(s[..|s| - 1]) * 10 + (s[|s| - 1] as int - '0' as int)
  }

  /** Reading back what `Decimal` prints gives the number again. */
  lemma {:induction false} DecimalRoundTrip(n: nat)
    ensures DecimalValue(Decimal(n)) == n
  {
    if n >= 10 {
      DecimalRoundTrip(n / 10);
      var s := Decimal(n);
      assert s[..|s| - 1] == Decimal(n / 10);
    }
  }

  /** `Decimal` is one-to-one, so the printed count identifies the number. */
  lemma DecimalInjective(m: nat, n: nat)
    requires Decimal(m) == Decimal(n)
    ensures m == n
  {
    DecimalRoundTrip(m);
    DecimalRoundTrip(n);
  }

  /** Python's `f"{i}"` for any `int`. */
  function IntText(i: int): (r: string)
    ensures r != []
    ensures i >= 0 ==> r == Decimal(i)
  {
    if i < 0 then "-" + Decimal(-i) else Decimal(i)
  }
}
