/**
 * The audit scanner: the findings of one file (`scan_file`), the choice of files to
 * scan (the filter inside `scan_directory`) and the findings of a whole tree.
 */
module AuditScan {
  import opened Wrappers
  import opened Strings
  import opened AuditRules

  /** One rule hit on one line. */
  datatype Finding = Finding(
    filePath: string,
    lineNumber: nat,
    lineContent: string,
    issueType: string,
    severity: Severity,
    recommendation: string)

  /** Longest code excerpt a finding keeps. */
  const MaxContent: nat := 100

  /** The finding recorded when rule `r` hits line number `n`, whose text is `line`. */
  function MakeFinding(path: string, n: nat, line: string, r: Rule): Finding {
    Finding(path, n, Take(Strip(line), MaxContent), r.issueType, r.severity, r.recommendation)
  }

  /** The findings of line number `n` for the first `r` rules, in table order. */
  function LineFindings(path: string, n: nat, line: string, r: nat): seq<Finding>
    requires r <= |Rules|
  {
    if r == 0 then []
    else
      LineFindings(path, n, line, r - 1) +
      (if Matches(Rules[r - 1].pattern, line) then [MakeFinding(path, n, line, Rules[r - 1])] else [])
  }

  /** The findings of the first `m` lines, line by line. */
  function FindingsUpTo(path: string, lines: seq<string>, m: nat): seq<Finding>
    requires m <= |lines|
  {
    if m == 0 then [] else FindingsUpTo(path, lines, m - 1) + LineFindings(path, m, lines[m - 1], |Rules|)
  }

  function FileFindings(path: string, lines: seq<string>): seq<Finding> {
    FindingsUpTo(path, lines, |lines|)
  }

  /** `scan_file`: a file that cannot be read (`None`) yields no findings. */
  method ScanFile(path: string, contents: Option<seq<string>>) returns (findings: seq<Finding>)
    ensures contents.None? ==> findings == []
    ensures contents.Some? ==> findings == FileFindings(path, contents.value)
  {
    findings := [];
    if contents.None? {
      return;
    }
    var lines := contents.value;
    for n := 0 to |lines|
      invariant findings == FindingsUpTo(path, lines, n)
    {
      var hits := ScanLine(path, n + 1, lines[n]);
      findings := findings + hits;
    }
  }

  /** The rules tried in table order against one line. */
  method ScanLine(path: string, n: nat, line: string) returns (hits: seq<Finding>)
    ensures hits == LineFindings(path, n, line, |Rules|)
  {
    hits := [];
    for r := 0 to |Rules|
      invariant hits == LineFindings(path, n, line, r)
    {
      if Matches(Rules[r].pattern, line) {
        hits := hits + [MakeFinding(path, n, line, Rules[r])];
      }
    }
  }

  /** Position of the first rule with the given issue type (|Rules| if there is none). */
  function RuleIndexFrom(t: string, q: nat): (r: nat)
    requires q <= |Rules|
    ensures q <= r <= |Rules|
    ensures r < |Rules| ==> Rules[r].issueType == t
    decreases |Rules| - q
  {
    if q == |Rules| then q else if Rules[q].issueType == t then q else RuleIndexFrom(t, q + 1)
  }

  function RuleIndex(t: string): nat {
    RuleIndexFrom(t, 0)
  }

  /** The issue types of the table are pairwise different, so each names its rule. */
  lemma RuleIndexOfRule(q: nat)
    requires q < |Rules|
    ensures RuleIndex(Rules[q].issueType) == q
  {
  }

  /** Scan order: by line number, then by position of the rule in the table. */
  predicate Before(f: Finding, g: Finding) {
    f.lineNumber < g.lineNumber ||
    (f.lineNumber == g.lineNumber && RuleIndex(f.issueType) < RuleIndex(g.issueType))
  }

  /** A finding for line number `n` of `lines` that is exactly what its rule's hit records. */
  predicate IsHit(f: Finding, path: string, lines: seq<string>) {
    1 <= f.lineNumber <= |lines| &&
    var q := RuleIndex(f.issueType);
    q < |Rules| &&
    Matches(Rules[q].pattern, lines[f.lineNumber - 1]) &&
    f == MakeFinding(path, f.lineNumber, lines[f.lineNumber - 1], Rules[q])
  }

  /** The positions in the table of the rules that hit `line`, among the first `r`. */
  function LineRules(line: string, r: nat): seq<nat>
    requires r <= |Rules|
  {
    if r == 0 then [] else LineRules(line, r - 1) + (if Matches(Rules[r - 1].pattern, line) then [r - 1] else [])
  }

  lemma {:induction false} LineRulesFacts(line: string, r: nat)
    requires r <= |Rules|
    ensures forall k :: 0 <= k < |LineRules(line, r)| ==>
      LineRules(line, r)[k] < r && Matches(Rules[LineRules(line, r)[k]].pattern, line)
    ensures forall j, k :: 0 <= j < k < |LineRules(line, r)| ==> LineRules(line, r)[j] < LineRules(line, r)[k]
  {
    if r > 0 {
      LineRulesFacts(line, r - 1);
    }
  }

  /** The findings of a line are the findings of its hitting rules, one each, in the same order. */
  lemma {:induction false} LineFindingsRules(path: string, n: nat, line: string, r: nat)
    requires r <= |Rules|
    ensures |LineFindings(path, n, line, r)| == |LineRules(line, r)|
    ensures forall k :: 0 <= k < |LineRules(line, r)| ==>
      LineRules(line, r)[k] < r && LineFindings(path, n, line, r)[k] == MakeFinding(path, n, line, Rules[LineRules(line, r)[k]])
  {
    if r > 0 {
      LineFindingsRules(path, n, line, r - 1);
    }
  }

  /** Each of `fs` is a hit recorded for one of the first `m` lines. */
  predicate HitsUpTo(fs: seq<Finding>, path: string, lines: seq<string>, m: nat) {
    forall k :: 0 <= k < |fs| ==> IsHit(fs[k], path, lines) && fs[k].lineNumber <= m
  }

  predicate AllOnLine(fs: seq<Finding>, m: nat) {
    forall k :: 0 <= k < |fs| ==> fs[k].lineNumber == m
  }

  predicate InScanOrder(fs: seq<Finding>) {
    forall j, k :: 0 <= j < k < |fs| ==> Before(fs[j], fs[k])
  }

  lemma HitsAppend(a: seq<Finding>, b: seq<Finding>, path: string, lines: seq<string>, m: nat)
    requires HitsUpTo(a, path, lines, m) && HitsUpTo(b, path, lines, m)
    ensures HitsUpTo(a + b, path, lines, m)
  {
    forall k | 0 <= k < |a + b| ensures IsHit((a + b)[k], path, lines) && (a + b)[k].lineNumber <= m {
      if k < |a| {
        assert (a + b)[k] == a[k];
      } else {
        assert (a + b)[k] == b[k - |a|];
      }
    }
  }

  lemma HitsWeaken(fs: seq<Finding>, path: string, lines: seq<string>, m: nat)
    requires HitsUpTo(fs, path, lines, m)
    ensures HitsUpTo(fs, path, lines, m + 1)
  {
  }

  /** Findings of earlier lines, then findings of line `m` in rule order, stay in scan order. */
  lemma OrderAppend(a: seq<Finding>, b: seq<Finding>, path: string, lines: seq<string>, m: nat)
    requires 1 <= m && InScanOrder(a) && InScanOrder(b)
    requires HitsUpTo(a, path, lines, m - 1) && AllOnLine(b, m)
    ensures InScanOrder(a + b)
  {
    forall j, k | 0 <= j < k < |a + b| ensures Before((a + b)[j], (a + b)[k]) {
      if k >= |a| && j < |a| {
        assert (a + b)[j] == a[j] && (a + b)[k] == b[k - |a|];
      } else if j >= |a| {
        assert (a + b)[j] == b[j - |a|] && (a + b)[k] == b[k - |a|];
      } else {
        assert (a + b)[j] == a[j] && (a + b)[k] == a[k];
      }
    }
  }

  /** The findings of line number `m` are hits on that line, in rule order. */
  lemma LineHits(path: string, lines: seq<string>, m: nat)
    requires 1 <= m <= |lines|
    ensures HitsUpTo(LineFindings(path, m, lines[m - 1], |Rules|), path, lines, m)
    ensures InScanOrder(LineFindings(path, m, lines[m - 1], |Rules|))
    ensures AllOnLine(LineFindings(path, m, lines[m - 1], |Rules|), m)
  {
    var line := lines[m - 1];
    LineRulesFacts(line, |Rules|);
    LineFindingsRules(path, m, line, |Rules|);
    HitsOfRules(LineFindings(path, m, line, |Rules|), LineRules(line, |Rules|), path, lines, m, line);
  }

  /** Findings made, in order, from increasing positions of rules that hit line number `m`. */
  lemma HitsOfRules(fs: seq<Finding>, qs: seq<nat>, path: string, lines: seq<string>, m: nat, line: string)
    requires 1 <= m <= |lines| && line == lines[m - 1] && |fs| == |qs|
    requires forall k :: 0 <= k < |qs| ==> qs[k] < |Rules| && Matches(Rules[qs[k]].pattern, line)
    requires forall k :: 0 <= k < |qs| ==> qs[k] < |Rules| && fs[k] == MakeFinding(path, m, line, Rules[qs[k]])
    requires forall j, k :: 0 <= j < k < |qs| ==> qs[j] < qs[k]
    ensures HitsUpTo(fs, path, lines, m) && InScanOrder(fs) && AllOnLine(fs, m)
  {
    IssueTypesIndexRules(fs, qs);
  }

  /** Each finding's issue type names the rule it was made from. */
  lemma IssueTypesIndexRules(fs: seq<Finding>, qs: seq<nat>)
    requires |fs| == |qs|
    requires forall k :: 0 <= k < |qs| ==> qs[k] < |Rules| && fs[k].issueType == Rules[qs[k]].issueType
    ensures forall k :: 0 <= k < |fs| ==> RuleIndex(fs[k].issueType) == qs[k]
  {
    forall k | 0 <= k < |fs| ensures RuleIndex(fs[k].issueType) == qs[k] {
      RuleIndexOfRule(qs[k]);
    }
  }

  /** Every finding of a file is a real hit of its rule on the line it names. */
  lemma {:induction false} FindingsSound(path: string, lines: seq<string>, m: nat)
    requires m <= |lines|
    ensures HitsUpTo(FindingsUpTo(path, lines, m), path, lines, m)
  {
    if m > 0 {
      FindingsSound(path, lines, m - 1);
      var a := FindingsUpTo(path, lines, m - 1);
      HitsWeaken(a, path, lines, m - 1);
      LineHits(path, lines, m);
      HitsAppend(a, LineFindings(path, m, lines[m - 1], |Rules|), path, lines, m);
    }
  }

  /** Findings come in strict scan order: by line, then by rule. */
  lemma {:induction false} FindingsOrdered(path: string, lines: seq<string>, m: nat)
    requires m <= |lines|
    ensures InScanOrder(FindingsUpTo(path, lines, m))
  {
    if m > 0 {
      FindingsOrdered(path, lines, m - 1);
      FindingsSound(path, lines, m - 1);
      LineHits(path, lines, m);
      var a := FindingsUpTo(path, lines, m - 1);
      OrderAppend(a, LineFindings(path, m, lines[m - 1], |Rules|), path, lines, m);
    }
  }

  /** Every hit of every rule on every line is reported. */
  lemma {:induction false} FindingsComplete(path: string, lines: seq<string>, m: nat, n: nat, q: nat)
    requires m <= |lines| && 1 <= n <= m && q < |Rules|
    requires Matches(Rules[q].pattern, lines[n - 1])
    ensures MakeFinding(path, n, lines[n - 1], Rules[q]) in FindingsUpTo(path, lines, m)
  {
    var f := MakeFinding(path, n, lines[n - 1], Rules[q]);
    var a := FindingsUpTo(path, lines, m - 1);
    var b := LineFindings(path, m, lines[m - 1], |Rules|);
    assert FindingsUpTo(path, lines, m) == a + b;
    if n < m {
      FindingsComplete(path, lines, m - 1, n, q);
      InLeft(f, a, b);
    } else {
      LineFindingsComplete(path, n, lines[n - 1], |Rules|, q);
      InRight(f, a, b);
    }
  }

  lemma InLeft<T>(x: T, a: seq<T>, b: seq<T>)
    requires x in a
    ensures x in a + b
  {
  }

  lemma InRight<T>(x: T, a: seq<T>, b: seq<T>)
    requires x in b
    ensures x in a + b
  {
  }

  lemma {:induction false} LineFindingsComplete(path: string, n: nat, line: string, r: nat, q: nat)
    requires q < r <= |Rules| && Matches(Rules[q].pattern, line)
    ensures MakeFinding(path, n, line, Rules[q]) in LineFindings(path, n, line, r)
  {
    if q < r - 1 {
      LineFindingsComplete(path, n, line, r - 1, q);
    }
  }

  /**
   * The scan of a file is exactly its hits: each finding is a hit of the rule it names,
   * every hit is reported, and the order is strictly by line and then by table order,
   * so no line is reported twice for the same rule.
   */
  lemma FileFindingsCorrect(path: string, lines: seq<string>)
    ensures forall f :: f in FileFindings(path, lines) ==> IsHit(f, path, lines)
    ensures forall n, q {:trigger MakeFinding(path, n, lines[n - 1], Rules[q])} ::
      1 <= n <= |lines| && 0 <= q < |Rules| && Matches(Rules[q].pattern, lines[n - 1]) ==>
      MakeFinding(path, n, lines[n - 1], Rules[q]) in FileFindings(path, lines)
    ensures forall j, k :: 0 <= j < k < |FileFindings(path, lines)| ==>
      Before(FileFindings(path, lines)[j], FileFindings(path, lines)[k])
    ensures forall j, k :: 0 <= j < k < |FileFindings(path, lines)| ==>
      (FileFindings(path, lines)[j].lineNumber, FileFindings(path, lines)[j].issueType) !=
      (FileFindings(path, lines)[k].lineNumber, FileFindings(path, lines)[k].issueType)
  {
    FindingsSound(path, lines, |lines|);
    FindingsOrdered(path, lines, |lines|);
    forall n, q {:trigger MakeFinding(path, n, lines[n - 1], Rules[q])}
      | 1 <= n <= |lines| && 0 <= q < |Rules| && Matches(Rules[q].pattern, lines[n - 1])
      ensures MakeFinding(path, n, lines[n - 1], Rules[q]) in FileFindings(path, lines)
    {
      FindingsComplete(path, lines, |lines|, n, q);
    }
  }

  /** The excerpt kept by a finding: the stripped line, cut to at most 100 characters. */
  lemma FindingContent(path: string, n: nat, line: string, r: Rule)
    ensures var c := MakeFinding(path, n, line, r).lineContent;
      |c| <= MaxContent && c <= Strip(line) && (|Strip(line)| <= MaxContent ==> c == Strip(line))
  {
  }

  // ---------------------------------------------------------------------------
  // Which files are scanned

  /** The directories skipped by default (`scan_directory` and `main`). */
  const DefaultExcludes: seq<string> := ["node_modules", ".git", "__pycache__", "venv", ".venv", "dist", "build"]

  /** `EXTENSIONS`. */
  const Extensions: set<string> := {".py", ".js", ".ts", ".jsx", ".tsx", ".cs", ".java", ".go", ".rb"}

  /** A path as the directory walk yields it: its text, its components, and its lines if readable. */
  datatype SourceFile = SourceFile(path: string, parts: seq<string>, contents: Option<seq<string>>)

  /** `Path.name`: the last component. */
  function FileName(parts: seq<string>): string {
    if |parts| == 0 then "" else parts[|parts| - 1]
  }

  /** Index of the last '.' in `name[..j]`, or -1 (`str.rfind`). */
  function LastDot(name: string, j: nat): (i: int)
    requires j <= |name|
    ensures -1 <= i < j
    ensures i >= 0 ==> name[i] == '.'
    ensures forall k :: i < k < j ==> name[k] != '.'
  {
    if j == 0 then -1 else if name[j - 1] == '.' then j - 1 else LastDot(name, j - 1)
  }

  /** `i` is the position of the last '.' of `name`. */
  predicate LastDotIs(name: string, i: int) {
    0 <= i < |name| && name[i] == '.' && forall k :: i < k < |name| ==> name[k] != '.'
  }

  /** `Path.suffix`: from the last dot on, unless that dot starts or ends the name. */
  function Suffix(name: string): (r: string)
    ensures r != "" ==> |r| >= 2 && |r| < |name| && r == name[|name| - |r|..]
    ensures r != "" ==> r[0] == '.' && forall k :: 1 <= k < |r| ==> r[k] != '.'
    ensures forall i | LastDotIs(name, i) :: r == if 0 < i < |name| - 1 then name[i..] else ""
    ensures (forall k :: 0 <= k < |name| ==> name[k] != '.') ==> r == ""
  {
    var i := LastDot(name, |name|);
    if 0 < i < |name| - 1 then name[i..] else ""
  }

  /** `str.lower()` on the ASCII letters; no other character lowers to a letter of `Extensions`. */
  function LowerAscii(s: string): (r: string)
    ensures |r| == |s|
    ensures forall k :: 0 <= k < |s| ==> r[k] == if 'A' <= s[k] <= 'Z' then (s[k] as int + 32) as char else s[k]
  {
    if s == [] then []
    else [if 'A' <= s[0] <= 'Z' then (s[0] as int + 32) as char else s[0]] + LowerAscii(s[1..])
  }

  /** `any(excluded in file_path.parts for excluded in exclude_dirs)`. */
  predicate Excluded(parts: seq<string>, excludes: seq<string>) {
    exists e | e in excludes :: e in parts
  }

  /** The path filter of `scan_directory`. */
  predicate ShouldScan(parts: seq<string>, excludes: seq<string>) {
    !Excluded(parts, excludes) && LowerAscii(Suffix(FileName(parts))) in Extensions
  }

  /** Every listed extension is a dot followed by at least one lower-case ASCII letter. */
  lemma ExtensionsShape(e: string)
    requires e in Extensions
    ensures |e| >= 2 && e[0] == '.'
    ensures forall k :: 1 <= k < |e| ==> 'a' <= e[k] <= 'z'
  {
  }

  /** A name ends in a listed extension, in any letter case, and has more before it. */
  predicate EndsInExtension(name: string) {
    exists e :: e in Extensions && |e| < |name| && LowerAscii(name[|name| - |e|..]) == e
  }

  /** A text that lower-cases to a listed extension is a dot followed by no other dot. */
  lemma LowersToExtension(t: string, e: string)
    requires e in Extensions && LowerAscii(t) == e
    ensures |t| == |e| >= 2 && t[0] == '.'
    ensures forall k :: 1 <= k < |t| ==> t[k] != '.'
  {
    ExtensionsShape(e);
    forall k | 1 <= k < |t| ensures t[k] != '.' {
      assert 'a' <= LowerAscii(t)[k] <= 'z';
    }
  }

  /** A name that ends in a listed extension, with more before it, has exactly that tail as its suffix. */
  lemma EndIsSuffix(name: string, e: string)
    requires e in Extensions && |e| < |name| && LowerAscii(name[|name| - |e|..]) == e
    ensures Suffix(name) == name[|name| - |e|..]
  {
    var i := |name| - |e|;
    var t := name[i..];
    LowersToExtension(t, e);
    forall k | i < k < |name| ensures name[k] != '.' {
      assert t[k - i] == name[k];
    }
    assert LastDotIs(name, i);
  }

  /** The suffix test reads as a test on the end of the name. */
  lemma SuffixInExtensions(name: string)
    ensures LowerAscii(Suffix(name)) in Extensions <==> EndsInExtension(name)
  {
    var s := Suffix(name);
    if LowerAscii(s) in Extensions {
      var e := LowerAscii(s);
      assert s != "" by {
        if s == "" { assert e == ""; ExtensionsShape(e); }
      }
      assert name[|name| - |e|..] == s;
      assert e in Extensions && |e| < |name| && LowerAscii(name[|name| - |e|..]) == e;
    }
    if EndsInExtension(name) {
      var e :| e in Extensions && |e| < |name| && LowerAscii(name[|name| - |e|..]) == e;
      EndIsSuffix(name, e);
    }
  }

  /**
   * A file is scanned iff none of its components equals an excluded name and its
   * name, lower-cased on ASCII letters, ends in a listed extension with at least one
   * character before it. Exclusion compares whole components.
   */
  lemma ShouldScanIff(parts: seq<string>, excludes: seq<string>)
    ensures ShouldScan(parts, excludes) <==>
      (forall k :: 0 <= k < |parts| ==> parts[k] !in excludes) && EndsInExtension(FileName(parts))
  {
    SuffixInExtensions(FileName(parts));
    if exists k :: 0 <= k < |parts| && parts[k] in excludes {
      var k :| 0 <= k < |parts| && parts[k] in excludes;
      assert parts[k] in excludes && parts[k] in parts;
    }
  }

  /**
   * `main` extends the default names with `--exclude`: whatever is added, a file with a
   * component among the seven defaults is never scanned.
   */
  lemma DefaultsAlwaysExcluded(parts: seq<string>, extra: seq<string>, k: nat)
    requires k < |parts| && parts[k] in DefaultExcludes
    ensures !ShouldScan(parts, DefaultExcludes + extra)
  {
    assert parts[k] in DefaultExcludes + extra && parts[k] in parts;
  }

  /** Exclusion compares whole components: `mybuild` is not `build`; upper-case suffixes count. */
  lemma ScannedExample()
    ensures ShouldScan(["src", "mybuild", "App.PY"], DefaultExcludes)
  {
    var parts := ["src", "mybuild", "App.PY"];
    assert LastDot("App.PY", 6) == 3;
    assert Suffix("App.PY") == ".PY";
    assert LowerAscii(".PY") == ".py";
    forall e | e in DefaultExcludes ensures e !in parts {
      assert e[0] != 's' && e[0] != 'm' && e[0] != 'A';
    }
  }

  /** A file below an excluded directory is not scanned. */
  lemma ExcludedExample()
    ensures !ShouldScan(["src", "build", "app.py"], DefaultExcludes)
  {
    assert "build" in DefaultExcludes && "build" in ["src", "build", "app.py"];
  }

  /** A dot that starts the name does not begin a suffix: `.py` alone is not scanned. */
  lemma DotFileExample()
    ensures !ShouldScan(["src", ".py"], DefaultExcludes)
  {
    assert LastDot(".py", 3) == 0;
    assert Suffix(".py") == "";
  }

  /** The findings of every file that passes the filter, in walk order. */
  function TreeFindings(files: seq<SourceFile>, excludes: seq<string>): seq<Finding> {
    if files == [] then []
    else
      TreeFindings(files[..|files| - 1], excludes) + Contribution(files[|files| - 1], excludes)
  }

  /** `scan_directory`: no exclusion list means the default one. */
  method ScanDirectory(files: seq<SourceFile>, excludeDirs: Option<seq<string>>) returns (all: seq<Finding>)
    ensures all == TreeFindings(files, excludeDirs.GetOr(DefaultExcludes))
  {
    var excludes := excludeDirs.GetOr(DefaultExcludes);
    all := [];
    for i := 0 to |files|
      invariant all == TreeFindings(files[..i], excludes)
    {
      var f := files[i];
      TreeFindingsStep(files, excludes, i);
      if ShouldScan(f.parts, excludes) {
        var findings := ScanFile(f.path, f.contents);
        all := all + findings;
      }
    }
    assert files[..|files|] == files;
  }

  lemma TreeFindingsStep(files: seq<SourceFile>, excludes: seq<string>, i: nat)
    requires i < |files|
    ensures TreeFindings(files[..i + 1], excludes) == TreeFindings(files[..i], excludes) + Contribution(files[i], excludes)
  {
    assert files[..i + 1][..i] == files[..i];
  }

  /** The findings a single walked file contributes. */
  function Contribution(f: SourceFile, excludes: seq<string>): seq<Finding> {
    if ShouldScan(f.parts, excludes) && f.contents.Some? then FileFindings(f.path, f.contents.value) else []
  }

  /** A finding of the tree is a finding of some file that passes the filter, and conversely. */
  lemma {:induction false} TreeFindingsMembership(files: seq<SourceFile>, excludes: seq<string>, g: Finding)
    ensures g in TreeFindings(files, excludes) <==> InSomeFile(files, excludes, g)
  {
    if files != [] {
      var n := |files| - 1;
      TreeFindingsMembership(files[..n], excludes, g);
      assert TreeFindings(files, excludes) == TreeFindings(files[..n], excludes) + Contribution(files[n], excludes);
      SomeHasSnoc(files, ContributionOf(excludes), g);
      assert ContributionOf(excludes)(files[n]) == Contribution(files[n], excludes);
    }
  }

  /** The findings each walked file contributes, as a function of the file. */
  function ContributionOf(excludes: seq<string>): SourceFile -> seq<Finding> {
    f => Contribution(f, excludes)
  }

  /** `c` yields `g` for some element of `xs`. */
  predicate SomeHas<T, U(==)>(xs: seq<T>, c: T -> seq<U>, g: U) {
    exists i :: 0 <= i < |xs| && g in c(xs[i])
  }

  /** Some walked file that passes the filter contributes `g`. */
  predicate InSomeFile(files: seq<SourceFile>, excludes: seq<string>, g: Finding) {
    SomeHas(files, ContributionOf(excludes), g)
  }

  lemma SomeHasSnoc<T, U>(xs: seq<T>, c: T -> seq<U>, g: U)
    requires xs != []
    ensures SomeHas(xs, c, g) <==> SomeHas(xs[..|xs| - 1], c, g) || g in c(xs[|xs| - 1])
  {
    var init := xs[..|xs| - 1];
    if SomeHas(xs, c, g) {
      var i :| 0 <= i < |xs| && g in c(xs[i]);
      if i < |init| {
        assert init[i] == xs[i];
      }
    }
    if SomeHas(init, c, g) {
      var i :| 0 <= i < |init| && g in c(init[i]);
      assert init[i] == xs[i];
    }
  }
}
