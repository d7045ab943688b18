/** String helpers standing for the Python `str` operations the pipeline relies on:
    `strip`, `join`, `str(int)`, `int(str)`, `in`, `find`, `rfind` and `split`. */
module Text {
  import opened Wrappers

  /** Whitespace as `str.isspace()`, `str.strip()` and the regex class `\s` see it: the
      control characters U+0009 to U+000D and U+001C to U+001F, the space, U+0085, the
      no-break space U+00A0, and the Unicode space separators and line and paragraph
      separators. */
  predicate IsSpace(c: char) {
    || '\U{0009}' <= c <= '\U{000D}'
    || '\U{001C}' <= c <= '\U{0020}'
    || c == '\U{0085}' || c == '\U{00A0}' || c == '\U{1680}'
    || '\U{2000}' <= c <= '\U{200A}'
    || c == '\U{2028}' || c == '\U{2029}' || c == '\U{202F}' || c == '\U{205F}' || c == '\U{3000}'
  }

  predicate IsDigit(c: char) {
    '0' <= c <= '9'
  }

  predicate AllSpace(s: string) {
    forall i :: 0 <= i < |s| ==> IsSpace(s[i])
  }

  /** Neither end of `s` is whitespace (the empty string is stripped). */
  predicate IsStripped(s: string) {
    s != [] ==> !IsSpace(s[0]) && !IsSpace(s[|s| - 1])
  }

  function LeadingSpaces(s: string): (n: nat)
    ensures n <= |s|
    ensures forall i :: 0 <= i < n ==> IsSpace(s[i])
    ensures n < |s| ==> !IsSpace(s[n])
  {
    if s == [] || !IsSpace(s[0]) then 0 else 1 + LeadingSpaces(s[1..])
  }

  function TrailingSpaces(s: string): (n: nat)
    ensures n <= |s|
    ensures forall i :: |s| - n <= i < |s| ==> IsSpace(s[i])
    ensures n < |s| ==> !IsSpace(s[|s| - 1 - n])
  {
    if s == [] || !IsSpace(s[|s| - 1]) then 0 else 1 + TrailingSpaces(s[..|s| - 1])
  }

  /** The bounds `[lo, hi)` of `s.strip()` inside `s`. */
  function StripBounds(s: string): (r: (nat, nat))
    ensures r.0 <= r.1 <= |s|
  {
    var lo := LeadingSpaces(s);
    if lo == |s| then (0, 0) else (lo, |s| - TrailingSpaces(s))
  }

  /** Python's `s.strip()`. */
  function Strip(s: string): (r: string)
    ensures r == s[StripBounds(s).0..StripBounds(s).1]
    ensures IsStripped(r)
    ensures r == [] <==> AllSpace(s)
  {
    var b := StripBounds(s);
    s[b.0..b.1]
  }

  lemma StripStripped(s: string)
    requires IsStripped(s)
    ensures Strip(s) == s
  {
  }

  lemma StripIdempotent(s: string)
    ensures Strip(Strip(s)) == Strip(s)
  {
    StripStripped(Strip(s));
  }

  /** Python's `sep.join(parts)`. */
  function Join(parts: seq<string>, sep: string): string {
    if parts == [] then []
    else if |parts| == 1 then parts[0]
    else parts[0] + sep + Join(parts[1..], sep)
  }

  /** A join of non-empty parts is empty only when there are no parts. */
  lemma JoinOfNonEmpty(parts: seq<string>, sep: string)
    requires forall i :: 0 <= i < |parts| ==> parts[i] != []
    ensures Join(parts, sep) == [] <==> parts == []
  {
    if parts != [] {
      assert |Join(parts, sep)| >= |parts[0]|;
    }
  }

  /** `"".join(parts)`, also what a loop of `+=` builds. */
  function Concat(parts: seq<string>): string {
    if parts == [] then [] else parts[0] + Concat(parts[1..])
  }

  lemma {:induction false} ConcatSnoc(parts: seq<string>, last: string)
    ensures Concat(parts + [last]) == Concat(parts) + last
  {
    if parts != [] {
      assert (parts + [last])[1..] == parts[1..] + [last];
      ConcatSnoc(parts[1..], last);
    }
  }

  lemma {:induction false} JoinSnoc(parts: seq<string>, last: string, sep: string)
    requires parts != []
    ensures Join(parts + [last], sep) == Join(parts, sep) + sep + last
  {
    if |parts| > 1 {
      assert (parts + [last])[1..] == parts[1..] + [last];
      JoinSnoc(parts[1..], last, sep);
    }
  }

  /** Python's `s[:n]`. */
  function Take(s: string, n: nat): (r: string)
    ensures |r| == if |s| <= n then |s| else n
    ensures r <= s
  {
    if |s| <= n then s else s[..n]
  }

  // ---------------------------------------------------------------- numerals

  function DigitChar(d: nat): (c: char)
    requires d < 10
    ensures IsDigit(c)
  {
    ('0' as int + d) as char
  }

  function DigitValue(c: char): nat
    requires IsDigit(c)
  {
    (c as int - '0' as int) as nat
  }

  predicate AllDigits(s: string) {
    forall i :: 0 <= i < |s| ==> IsDigit(s[i])
  }

  /** Python's `str(n)` for a natural number. */
  function Str(n: nat): string
    decreases n
  {
    if n < 10 then [DigitChar(n)] else Str(n / 10) + [DigitChar(n % 10)]
  }

  /** Python's `int(s)` for a non-empty string of decimal digits. */
  function DecimalValue(s: string): nat
    requires AllDigits(s)
  {
    if s == [] then 0 else 10 * DecimalValue(s[..|s| - 1]) + DigitValue(s[|s| - 1])
  }

  /** `int(str(n)) == n`: the numeral of a number reads back as that number. */
  lemma {:induction false} StrRoundTrip(n: nat)
    ensures Str(n) != [] && AllDigits(Str(n))
    ensures DecimalValue(Str(n)) == n
    decreases n
  {
    var s := Str(n);
    if n >= 10 {
      StrRoundTrip(n / 10);
      assert s[..|s| - 1] == Str(n / 10);
      assert DigitValue(s[|s| - 1]) == n % 10;
    } else {
      assert DigitValue(s[0]) == n;
    }
  }

  lemma StrInjective(m: nat, n: nat)
    ensures Str(m) == Str(n) <==> m == n
  {
    StrRoundTrip(m);
    StrRoundTrip(n);
  }

  // ---------------------------------------------------------------- searching

  predicate OccursAt(s: string, pat: string, i: nat) {
    i + |pat| <= |s| && s[i..i + |pat|] == pat
  }

  /** The first occurrence of `pat` in `s` at or after `from`. */
  function FindFrom(s: string, pat: string, from: nat): (r: Option<nat>)
    ensures r.Some? ==> from <= r.value && OccursAt(s, pat, r.value)
    ensures r.Some? ==> forall k :: from <= k < r.value ==> !OccursAt(s, pat, k)
    ensures r.None? ==> forall k :: from <= k ==> !OccursAt(s, pat, k)
    decreases |s| - from
  {
    if from + |pat| > |s| then None
    else if OccursAt(s, pat, from) then Some(from)
    else FindFrom(s, pat, from + 1)
  }

  /** Python's `s.find(pat)`, as an option. */
  function Find(s: string, pat: string): Option<nat> {
    FindFrom(s, pat, 0)
  }

  /** Python's `pat in s`. */
  predicate Contains(s: string, pat: string) {
    Find(s, pat).Some?
  }

  /** Python's `s.rfind(pat, lo, hi)`: the last occurrence starting at or after `lo`
      and ending at or before `hi`. */
  function RFind(s: string, pat: string, lo: nat, hi: nat): (r: Option<nat>)
    requires hi <= |s|
    ensures r.Some? ==> lo <= r.value && r.value + |pat| <= hi && OccursAt(s, pat, r.value)
    ensures r.Some? ==> forall k :: r.value < k && k + |pat| <= hi ==> !OccursAt(s, pat, k)
    ensures r.None? ==> forall k :: lo <= k && k + |pat| <= hi ==> !OccursAt(s, pat, k)
    decreases hi
  {
    if hi < lo + |pat| then None
    else if OccursAt(s, pat, hi - |pat|) then Some(hi - |pat|)
    else if hi == 0 then None
    else RFind(s, pat, lo, hi - 1)
  }

  /** `s.split(sep)[0]`: everything before the first `sep`, or all of `s`. */
  function Before(s: string, sep: string): (r: string)
    ensures r <= s
    ensures r == s || OccursAt(s, sep, |r|)
    ensures |sep| > 0 ==> forall k :: !OccursAt(r, sep, k)
  {
    match Find(s, sep)
    case Some(i) => PrefixOccurrences(s, i, sep); s[..i]
    case None => s
  }

  /** An occurrence inside a prefix is an occurrence in the whole string. */
  lemma PrefixOccurrences(s: string, n: nat, pat: string)
    requires n <= |s|
    ensures forall k :: OccursAt(s[..n], pat, k) ==> OccursAt(s, pat, k)
  {
    forall k: nat | OccursAt(s[..n], pat, k) ensures OccursAt(s, pat, k) {
      assert s[..n][k..k + |pat|] == s[k..k + |pat|];
    }
  }

  /** Everything after the first `sep`; with `Before` this gives `s.split(sep)[1]`. */
  function After(s: string, sep: string): (r: string)
    requires Contains(s, sep)
  {
    s[Find(s, sep).value + |sep|..]
  }
}
