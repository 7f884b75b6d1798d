/** Optional values: a dictionary lookup that may miss, a call that may fail. */
module Wrappers {

  datatype Option<+T> = None | Some(value: T) {

    /** The value carried, or the given default when there is none (Python's `d.get(k, default)`). */
    function GetOr(default: T): T {
      match this
      case Some(v) => v
      case None => default
    }
  }
}

/** Text helpers shared by the audit scanner and the evaluation report. */
module Strings {

  /** Python's `str.isspace`, which is also what `\s` matches and what `str.strip()` removes. */
  predicate IsSpace(c: char) {
    || ('\U{9}' <= c <= '\U{d}')
    || ('\U{1c}' <= c <= '\U{20}')
    || c == '\U{85}' || c == '\U{a0}' || c == '\U{1680}'
    || ('\U{2000}' <= c <= '\U{200a}')
    || c == '\U{2028}' || c == '\U{2029}' || c == '\U{202f}' || c == '\U{205f}' || c == '\U{3000}'
  }

  /** ASCII decimal digit, the `\d` of the audit patterns. */
  predicate IsDigit(c: char) {
    '0' <= c <= '9'
  }

  predicate AllSpace(s: string) {
    forall k :: 0 <= k < |s| ==> IsSpace(s[k])
  }

  /** The first index at or after `i` that does not hold white space. */
  function SkipSpaces(s: string, i: nat): (r: nat)
    requires i <= |s|
    ensures i <= r <= |s|
    ensures forall k :: i <= k < r ==> IsSpace(s[k])
    ensures r == |s| || !IsSpace(s[r])
    decreases |s| - i
  {
    if i < |s| && IsSpace(s[i]) then SkipSpaces(s, i + 1) else i
  }

  /** The end of `s[..j]` once trailing white space after index `lo` is dropped. */
  function TrimEndFrom(s: string, lo: nat, j: nat): (r: nat)
    requires lo <= j <= |s|
    ensures lo <= r <= j
    ensures forall k :: r <= k < j ==> IsSpace(s[k])
    ensures r == lo || !IsSpace(s[r - 1])
    decreases j
  {
    if j > lo && IsSpace(s[j - 1]) then TrimEndFrom(s, lo, j - 1) else j
  }

  /** The bounds `[a, b)` of `s.strip()` within `s`. */
  function StripSpan(s: string): (span: (nat, nat))
    ensures span.0 <= span.1 <= |s|
    ensures forall k :: 0 <= k < span.0 ==> IsSpace(s[k])
    ensures forall k :: span.1 <= k < |s| ==> IsSpace(s[k])
    ensures span.0 < span.1 ==> !IsSpace(s[span.0]) && !IsSpace(s[span.1 - 1])
  {
    var a := SkipSpaces(s, 0);
    (a, TrimEndFrom(s, a, |s|))
  }

  /** Python's `s.strip()`: leading and trailing white space removed. */
  function Strip(s: string): (r: string)
    ensures |r| <= |s|
    ensures r == "" || (!IsSpace(r[0]) && !IsSpace(r[|r| - 1]))
    ensures r == "" <==> AllSpace(s)
  {
    var span := StripSpan(s);
    assert !AllSpace(s) ==> span.0 < span.1;
    s[span.0..span.1]
  }

  /** `s.strip()` is a contiguous slice of `s`, and only white space lies outside it. */
  lemma StripSlice(s: string)
    ensures exists a, b :: 0 <= a <= b <= |s| && Strip(s) == s[a..b] && AllSpace(s[..a]) && AllSpace(s[b..])
  {
    var span := StripSpan(s);
    assert AllSpace(s[..span.0]) && AllSpace(s[span.1..]);
  }

  /** Stripping twice is stripping once. */
  lemma StripIdempotent(s: string)
    ensures Strip(Strip(s)) == Strip(s)
  {
    var r := Strip(s);
    if r != "" {
      assert SkipSpaces(r, 0) == 0;
      assert TrimEndFrom(r, 0, |r|) == |r|;
      assert r[0..|r|] == r;
    }
  }

  /** Python's `s[:n]`. */
  function Take(s: string, n: nat): (r: string)
    ensures |r| == if |s| < n then |s| else n
    ensures r <= s
  {
    if |s| <= n then s else s[..n]
  }

  function DigitChar(d: nat): (c: char)
    requires d < 10
    ensures IsDigit(c)
  {
    "0123456789"[d]
  }

  /** Python's `str(n)` for a non-negative integer. */
  function NatToString(n: nat): (r: string)
    ensures |r| > 0
    ensures forall k :: 0 <= k < |r| ==> IsDigit(r[k])
    decreases n
  {
    if n < 10 then [DigitChar(n)] else NatToString(n / 10) + [DigitChar(n % 10)]
  }

  /** Python's `c * n` for a one-character string `c`. */
  function Repeat(c: char, n: nat): (r: string)
    ensures |r| == n
    ensures forall k :: 0 <= k < n ==> r[k] == c
  {
    if n == 0 then "" else Repeat(c, n - 1) + [c]
  }

  /** Python's `"\n".join(lines)`. */
  function JoinLines(lines: seq<string>): string {
    if |lines| == 0 then ""
    else if |lines| == 1 then lines[0]
    else lines[0] + "\n" + JoinLines(lines[1..])
  }

  /** The joined text starts with the first line. */
  lemma JoinStartsWithFirst(lines: seq<string>)
    requires |lines| > 0
    ensures lines[0] <= JoinLines(lines)
  {
  }

  /** `w` occurs in `text` at index `a`. */
  predicate OccursAt(w: string, text: string, a: nat) {
    a + |w| <= |text| && text[a..a + |w|] == w
  }

  /** `w` occurs in `text` (Python's `w in text`). */
  predicate Occurs(w: string, text: string) {
    exists a: nat | a <= |text| :: OccursAt(w, text, a)
  }

  /** Each line occurs in the joined text. */
  lemma {:induction false} JoinLinesOccurs(lines: seq<string>, k: nat)
    requires k < |lines|
    ensures Occurs(lines[k], JoinLines(lines))
  {
    var text := JoinLines(lines);
    if k == 0 {
      JoinStartsWithFirst(lines);
      assert OccursAt(lines[0], text, 0);
    } else {
      JoinLinesOccurs(lines[1..], k - 1);
      var rest := JoinLines(lines[1..]);
      var w := lines[k];
      assert lines[1..][k - 1] == w;
      var a: nat :| a <= |rest| && OccursAt(w, rest, a);
      var off := |lines[0]| + 1;
      assert text == lines[0] + "\n" + rest;
      assert text[off + a..off + a + |w|] == rest[a..a + |w|];
      assert OccursAt(w, text, off + a);
    }
  }

  /** Python's `a < b` on strings: lexicographic by code point. */
  predicate Less(a: string, b: string) {
    if |a| == 0 then |b| > 0
    else if |b| == 0 then false
    else if a[0] != b[0] then a[0] < b[0]
    else Less(a[1..], b[1..])
  }

  lemma {:induction false} LessIrreflexive(a: string)
    ensures !Less(a, a)
  {
    if |a| > 0 {
      LessIrreflexive(a[1..]);
    }
  }

  lemma {:induction false} LessTransitive(a: string, b: string, c: string)
    requires Less(a, b) && Less(b, c)
    ensures Less(a, c)
  {
    if |a| > 0 && |b| > 0 && |c| > 0 && a[0] == b[0] && b[0] == c[0] {
      LessTransitive(a[1..], b[1..], c[1..]);
    }
  }

  lemma {:induction false} LessTotal(a: string, b: string)
    requires a != b
    ensures Less(a, b) || Less(b, a)
  {
    if |a| > 0 && |b| > 0 && a[0] == b[0] {
      assert a == [a[0]] + a[1..] && b == [b[0]] + b[1..];
      LessTotal(a[1..], b[1..]);
    }
  }

  lemma {:induction false} LessAsymmetric(a: string, b: string)
    requires Less(a, b)
    ensures !Less(b, a)
  {
    if |a| > 0 && |b| > 0 && a[0] == b[0] {
      LessAsymmetric(a[1..], b[1..]);
    }
  }

  /** Every pair in order, each strictly before the next: sorted and free of duplicates. */
  predicate StrictlySorted(s: seq<string>) {
    forall i, j :: 0 <= i < j < |s| ==> Less(s[i], s[j])
  }

  predicate Distinct<T(==)>(s: seq<T>) {
    forall i, j :: 0 <= i < j < |s| ==> s[i] != s[j]
  }

  function Insert(x: string, s: seq<string>): seq<string> {
    if s == [] || Less(x, s[0]) then [x] + s else [s[0]] + Insert(x, s[1..])
  }

  /** Inserting adds exactly `x`. */
  lemma {:induction false} InsertFacts(x: string, s: seq<string>)
    ensures multiset(Insert(x, s)) == multiset(s) + multiset{x}
    ensures forall y :: y in Insert(x, s) <==> y == x || y in s
  {
    if !(s == [] || Less(x, s[0])) {
      InsertFacts(x, s[1..]);
      assert s == [s[0]] + s[1..];
    }
  }

  lemma {:induction false} InsertSorted(x: string, s: seq<string>)
    requires StrictlySorted(s) && x !in s
    ensures StrictlySorted(Insert(x, s))
  {
    if s == [] || Less(x, s[0]) {
      forall j | 0 < j < |s| + 1 ensures Less(x, ([x] + s)[j]) {
        if j > 1 { LessTransitive(x, s[0], s[j - 1]); }
      }
    } else {
      LessTotal(x, s[0]);
      var rest := s[1..];
      assert x !in rest;
      InsertSorted(x, rest);
      InsertFacts(x, rest);
      var t := Insert(x, rest);
      forall j | 0 <= j < |t| ensures Less(s[0], t[j]) {
        assert t[j] in t;
        if t[j] != x {
          var k :| 0 <= k < |rest| && rest[k] == t[j];
          assert s[k + 1] == t[j];
        }
      }
      assert Insert(x, s) == [s[0]] + t;
    }
  }

  /** Python's `sorted` on a list of distinct strings (insertion sort). */
  function SortStrings(s: seq<string>): seq<string> {
    if s == [] then [] else Insert(s[0], SortStrings(s[1..]))
  }

  /** Sorting distinct strings gives them in strictly increasing order, with the same elements. */
  lemma {:induction false} SortStringsCorrect(s: seq<string>)
    requires Distinct(s)
    ensures StrictlySorted(SortStrings(s))
    ensures multiset(SortStrings(s)) == multiset(s)
  {
    if s != [] {
      assert s == [s[0]] + s[1..];
      SortStringsCorrect(s[1..]);
      assert s[0] !in s[1..] by {
        forall k | 0 <= k < |s[1..]| ensures s[1..][k] != s[0] {
          assert s[1..][k] == s[k + 1];
        }
      }
      assert s[0] !in multiset(SortStrings(s[1..]));
      InsertSorted(s[0], SortStrings(s[1..]));
      InsertFacts(s[0], SortStrings(s[1..]));
    }
  }
}
