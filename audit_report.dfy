/**
 * The text report of the audit (`generate_report`) and the exit status of `main`.
 */
module AuditReport {
  import opened Wrappers
  import opened Strings
  import opened AuditRules
  import opened AuditScan

  // ---------------------------------------------------------------------------
  // Severity counts

  function CountSeverity(fs: seq<Finding>, s: Severity): (n: nat)
    ensures n <= |fs|
  {
    if fs == [] then 0 else (if fs[0].severity == s then 1 else 0) + CountSeverity(fs[1..], s)
  }

  /** The three counts of the report add up to the number of findings. */
  lemma {:induction false} CountsPartition(fs: seq<Finding>)
    ensures CountSeverity(fs, High) + CountSeverity(fs, Medium) + CountSeverity(fs, Info) == |fs|
  {
    if fs != [] {
      CountsPartition(fs[1..]);
    }
  }

  /** A count is positive exactly when some finding has that severity. */
  lemma {:induction false} CountPositiveIff(fs: seq<Finding>, s: Severity)
    ensures CountSeverity(fs, s) > 0 <==> exists k :: 0 <= k < |fs| && fs[k].severity == s
  {
    if fs != [] {
      CountPositiveIff(fs[1..], s);
      if exists k :: 0 <= k < |fs| && fs[k].severity == s {
        var k :| 0 <= k < |fs| && fs[k].severity == s;
        if k > 0 {
          assert fs[1..][k - 1].severity == s;
        }
      }
      if exists k :: 0 <= k < |fs[1..]| && fs[1..][k].severity == s {
        var k :| 0 <= k < |fs[1..]| && fs[1..][k].severity == s;
        assert fs[k + 1].severity == s;
      }
    }
  }

  // ---------------------------------------------------------------------------
  // Grouping by file

  /** The file paths in order of first appearance (the key order of `by_file`). */
  function PathsInOrder(fs: seq<Finding>): seq<string> {
    if fs == [] then []
    else
      var d := PathsInOrder(fs[..|fs| - 1]);
      if fs[|fs| - 1].filePath in d then d else d + [fs[|fs| - 1].filePath]
  }

  lemma {:induction false} PathsInOrderFacts(fs: seq<Finding>)
    ensures Distinct(PathsInOrder(fs))
    ensures forall p :: p in PathsInOrder(fs) <==> exists k :: 0 <= k < |fs| && fs[k].filePath == p
  {
    if fs != [] {
      var init := fs[..|fs| - 1];
      PathsInOrderFacts(init);
      forall k | 0 <= k < |init| ensures init[k] == fs[k] { }
    }
  }

  /** The findings of file `p`, in their original order (`by_file[p]`). */
  function OfFile(fs: seq<Finding>, p: string): seq<Finding> {
    if fs == [] then []
    else OfFile(fs[..|fs| - 1], p) + (if fs[|fs| - 1].filePath == p then [fs[|fs| - 1]] else [])
  }

  /** The group of a file holds exactly the findings with that path. */
  lemma {:induction false} OfFileMembers(fs: seq<Finding>, p: string)
    ensures forall f :: f in OfFile(fs, p) <==> f in fs && f.filePath == p
  {
    if fs != [] {
      OfFileMembers(fs[..|fs| - 1], p);
      assert fs == fs[..|fs| - 1] + [fs[|fs| - 1]];
    }
  }

  /** A path not yet seen has no findings. */
  lemma {:induction false} OfFileUnseen(fs: seq<Finding>, p: string)
    requires p !in PathsInOrder(fs)
    ensures OfFile(fs, p) == []
  {
    if fs != [] {
      OfFileUnseen(fs[..|fs| - 1], p);
    }
  }

  /** Python's `sorted(by_file.items())`: the paths in increasing order. */
  function SortedPaths(fs: seq<Finding>): seq<string> {
    SortStrings(PathsInOrder(fs))
  }

  /** Files are listed in strictly increasing path order, each path of a finding exactly once. */
  lemma SortedPathsCorrect(fs: seq<Finding>)
    ensures StrictlySorted(SortedPaths(fs))
    ensures forall p :: p in SortedPaths(fs) <==> exists k :: 0 <= k < |fs| && fs[k].filePath == p
  {
    PathsInOrderFacts(fs);
    SortStringsCorrect(PathsInOrder(fs));
    forall p ensures p in SortedPaths(fs) <==> p in PathsInOrder(fs) {
      assert p in SortedPaths(fs) <==> p in multiset(SortedPaths(fs));
      assert p in PathsInOrder(fs) <==> p in multiset(PathsInOrder(fs));
    }
  }

  // ---------------------------------------------------------------------------
  // Sorting one file's findings by line (a stable sort)

  function InsertByLine(x: Finding, s: seq<Finding>): seq<Finding> {
    if s == [] || x.lineNumber <= s[0].lineNumber then [x] + s else [s[0]] + InsertByLine(x, s[1..])
  }

  /** Python's `sorted(file_findings, key=lambda x: x.line_number)` (insertion sort, stable). */
  function SortByLine(s: seq<Finding>): seq<Finding> {
    if s == [] then [] else InsertByLine(s[0], SortByLine(s[1..]))
  }

  predicate LineSorted(s: seq<Finding>) {
    forall i, j :: 0 <= i < j < |s| ==> s[i].lineNumber <= s[j].lineNumber
  }

  /** The findings of `s` on line number `n`, in order. */
  function OnLine(s: seq<Finding>, n: nat): seq<Finding> {
    if s == [] then [] else (if s[0].lineNumber == n then [s[0]] else []) + OnLine(s[1..], n)
  }

  lemma InsertByLineCons(x: Finding, s: seq<Finding>)
    requires s != [] && x.lineNumber > s[0].lineNumber
    ensures InsertByLine(x, s) == [s[0]] + InsertByLine(x, s[1..])
  {
  }

  lemma InsertByLineFront(x: Finding, s: seq<Finding>)
    requires s == [] || x.lineNumber <= s[0].lineNumber
    ensures InsertByLine(x, s) == [x] + s
  {
  }

  lemma OnLineCons(y: Finding, t: seq<Finding>, n: nat)
    ensures OnLine([y] + t, n) == (if y.lineNumber == n then [y] else []) + OnLine(t, n)
  {
    assert ([y] + t)[0] == y && ([y] + t)[1..] == t;
  }

  lemma {:induction false} InsertByLinePerm(x: Finding, s: seq<Finding>)
    ensures multiset(InsertByLine(x, s)) == multiset(s) + multiset{x}
  {
    if !(s == [] || x.lineNumber <= s[0].lineNumber) {
      InsertByLinePerm(x, s[1..]);
      InsertByLineCons(x, s);
      assert s == [s[0]] + s[1..];
    }
  }

  lemma {:induction false} InsertByLineFacts(x: Finding, s: seq<Finding>)
    requires LineSorted(s)
    ensures LineSorted(InsertByLine(x, s))
    ensures multiset(InsertByLine(x, s)) == multiset(s) + multiset{x}
  {
    InsertByLinePerm(x, s);
    if !(s == [] || x.lineNumber <= s[0].lineNumber) {
      var rest := s[1..];
      assert LineSorted(rest);
      InsertByLineFacts(x, rest);
      InsertByLinePerm(x, rest);
      InsertByLineCons(x, s);
      var t := InsertByLine(x, rest);
      LowerBoundKept(s[0].lineNumber, x, rest, t);
      ConsSorted(s[0], t);
    }
  }

  /** A bound below `x` and every element of `rest` is below every element of a permutation of both. */
  lemma LowerBoundKept(lo: nat, x: Finding, rest: seq<Finding>, t: seq<Finding>)
    requires lo <= x.lineNumber && forall k :: 0 <= k < |rest| ==> lo <= rest[k].lineNumber
    requires multiset(t) == multiset(rest) + multiset{x}
    ensures forall j :: 0 <= j < |t| ==> lo <= t[j].lineNumber
  {
    forall j | 0 <= j < |t| ensures lo <= t[j].lineNumber {
      assert t[j] in multiset(t);
      if t[j] != x {
        assert t[j] in multiset(rest);
        var k :| 0 <= k < |rest| && rest[k] == t[j];
      }
    }
  }

  lemma ConsSorted(y: Finding, t: seq<Finding>)
    requires LineSorted(t) && forall j :: 0 <= j < |t| ==> y.lineNumber <= t[j].lineNumber
    ensures LineSorted([y] + t)
  {
  }

  lemma {:induction false} InsertByLineOnLine(x: Finding, s: seq<Finding>, n: nat)
    ensures OnLine(InsertByLine(x, s), n) == (if x.lineNumber == n then [x] else []) + OnLine(s, n)
  {
    if s == [] || x.lineNumber <= s[0].lineNumber {
      InsertByLineFront(x, s);
      OnLineCons(x, s, n);
    } else {
      var rest := s[1..];
      var t := InsertByLine(x, rest);
      InsertByLineOnLine(x, rest, n);
      InsertByLineCons(x, s);
      OnLineCons(s[0], t, n);
      var head := if s[0].lineNumber == n then [s[0]] else [];
      assert OnLine(s, n) == head + OnLine(rest, n);
      if x.lineNumber == n {
        assert head == [];
      } else {
        assert OnLine(InsertByLine(x, s), n) == head + OnLine(rest, n);
      }
    }
  }

  /**
   * Sorting by line gives the findings in non-decreasing line order, as a permutation,
   * and keeps the scan order of findings on the same line (the sort is stable).
   */
  lemma {:induction false} SortByLineCorrect(s: seq<Finding>)
    ensures LineSorted(SortByLine(s))
    ensures multiset(SortByLine(s)) == multiset(s)
    ensures forall n :: OnLine(SortByLine(s), n) == OnLine(s, n)
  {
    if s != [] {
      SortByLineCorrect(s[1..]);
      InsertByLineFacts(s[0], SortByLine(s[1..]));
      assert s == [s[0]] + s[1..];
      forall n ensures OnLine(SortByLine(s), n) == OnLine(s, n) {
        InsertByLineOnLine(s[0], SortByLine(s[1..]), n);
      }
    }
  }

  /** Findings already in line order, as one file's scan produces them, are left as they are. */
  lemma {:induction false} SortByLineOfSorted(s: seq<Finding>)
    requires LineSorted(s)
    ensures SortByLine(s) == s
  {
    if s != [] {
      assert LineSorted(s[1..]);
      SortByLineOfSorted(s[1..]);
    }
  }

  // ---------------------------------------------------------------------------
  // The report text

  const NoIssuesBanner: string := JoinLines([
    "",
    "╔══════════════════════════════════════════════════════════════════╗",
    "║  ✅ No migration issues found!                                   ║",
    "║                                                                  ║",
    "║  Your code appears ready for GPT-5.1.                           ║",
    "║  Remember to update the model name when deploying.              ║",
    "╚══════════════════════════════════════════════════════════════════╝",
    ""
  ])

  function Icon(s: Severity): string {
    match s
    case High => "\U{1F534}"
    case Medium => "\U{1F7E1}"
    case Info => "\U{1F535}"
  }

  const FileIcon: string := "\U{1F4C4} "

  function HeaderLines(total: nat, high: nat, medium: nat, info: nat): seq<string> {
    [ Repeat('=', 70),
      "AZURE OPENAI MIGRATION AUDIT REPORT",
      Repeat('=', 70),
      "",
      "Total findings: " + NatToString(total),
      "  " + Icon(High) + " HIGH:   " + NatToString(high) + " (will cause errors)",
      "  " + Icon(Medium) + " MEDIUM: " + NatToString(medium) + " (should fix)",
      "  " + Icon(Info) + " INFO:   " + NatToString(info) + " (informational)",
      "",
      Repeat('-', 70),
      "FINDINGS BY FILE",
      Repeat('-', 70) ]
  }

  /** The three lines reporting one finding. */
  function EntryLines(f: Finding): seq<string> {
    [ "   Line " + NatToString(f.lineNumber) + ": " + Icon(f.severity) + " " + f.issueType,
      "      Code: " + f.lineContent,
      "      Fix:  " + f.recommendation ]
  }

  function EntriesLines(fs: seq<Finding>): seq<string> {
    if fs == [] then [] else EntriesLines(fs[..|fs| - 1]) + EntryLines(fs[|fs| - 1])
  }

  /** The block of one file: a blank line, its path, then its findings by line. */
  function FileSection(fs: seq<Finding>, p: string): seq<string> {
    ["", FileIcon + p] + EntriesLines(SortByLine(OfFile(fs, p)))
  }

  function Sections(fs: seq<Finding>, paths: seq<string>): seq<string> {
    if paths == [] then [] else Sections(fs, paths[..|paths| - 1]) + FileSection(fs, paths[|paths| - 1])
  }

  /** A numbered step of the recommended actions. */
  function Step(n: char, text: string): string {
    [n] + ". " + text
  }

  /** An indented item under a step. */
  function Bullet(text: string): string {
    "   - " + text
  }

  const RequiredHeading := Step('1', "[REQUIRED] Fix all HIGH severity issues")
  const RecommendedHeading := Step('2', "[RECOMMENDED] Fix MEDIUM severity issues")
  const AfterFixesHeading := Step('3', "[AFTER FIXES] Update model name from 'gpt-4o' to 'gpt-5.1'")
  const TestingHeading := Step('4', "[TESTING] Run evaluation tests before deploying")

  const ActionsTitle: seq<string> := ["", Repeat('-', 70), "RECOMMENDED ACTIONS", Repeat('-', 70), ""]

  const RequiredBlock: seq<string> := [
    RequiredHeading,
    Bullet("Remove unsupported parameters (temperature, top_p, etc.)"),
    Bullet("Rename max_tokens to max_completion_tokens"),
    ""
  ]

  const RecommendedBlock: seq<string> := [
    RecommendedHeading,
    Bullet("Update API version to 2025-06-01"),
    Bullet("Change 'system' role to 'developer'"),
    ""
  ]

  const ClosingBlock: seq<string> := [
    AfterFixesHeading,
    "",
    TestingHeading,
    Bullet("See docs/evaluation-guide.md for setup instructions"),
    "",
    Repeat('=', 70)
  ]

  function ActionLines(high: nat, medium: nat): seq<string> {
    ActionsTitle + (if high > 0 then RequiredBlock else []) + (if medium > 0 then RecommendedBlock else []) + ClosingBlock
  }

  /** The lines of the report for a non-empty list of findings. */
  function ReportLines(fs: seq<Finding>): seq<string> {
    HeaderLines(|fs|, CountSeverity(fs, High), CountSeverity(fs, Medium), CountSeverity(fs, Info)) +
    Sections(fs, SortedPaths(fs)) +
    ActionLines(CountSeverity(fs, High), CountSeverity(fs, Medium))
  }

  /**
   * `generate_report` as a value: the banner exactly when there are no findings, and
   * otherwise a report that opens with the rule of seventy '=' signs.
   */
  function Report(fs: seq<Finding>): (r: string)
    ensures r == NoIssuesBanner <==> fs == []
    ensures fs != [] ==> Repeat('=', 70) <= r
  {
    if fs == [] then NoIssuesBanner
    else
      var lines := ReportLines(fs);
      assert lines[0] == Repeat('=', 70);
      JoinStartsWithFirst(lines);
      assert NoIssuesBanner[0] == '\n';
      JoinLines(lines)
  }

  /** `generate_report`. */
  method GenerateReport(findings: seq<Finding>) returns (report: string)
    ensures report == Report(findings)
  {
    if findings == [] {
      return NoIssuesBanner;
    }
    var high := CountSeverity(findings, High);
    var medium := CountSeverity(findings, Medium);
    var info := CountSeverity(findings, Info);
    var byFile, order := GroupByFile(findings);

    var paths := SortStrings(order);
    SortStringsCorrect(order);
    forall p | p in paths ensures p in byFile {
      assert p in multiset(paths);
    }
    var sections := WriteSections(findings, byFile, paths);
    var actions := WriteActions(high, medium);
    assert paths == SortedPaths(findings);
    var lines := HeaderLines(|findings|, high, medium, info) + sections + actions;
    assert lines == ReportLines(findings);
    report := JoinLines(lines);
  }

  /** The "RECOMMENDED ACTIONS" part: steps 1 and 2 only when there are HIGH and MEDIUM findings. */
  method WriteActions(high: nat, medium: nat) returns (lines: seq<string>)
    ensures lines == ActionLines(high, medium)
  {
    lines := ActionsTitle;
    if high > 0 {
      lines := lines + RequiredBlock;
    }
    if medium > 0 {
      lines := lines + RecommendedBlock;
    }
    lines := lines + ClosingBlock;
  }

  /** The `by_file` dictionary of `generate_report`, with `order` the insertion order of its keys. */
  method GroupByFile(findings: seq<Finding>) returns (byFile: map<string, seq<Finding>>, order: seq<string>)
    ensures order == PathsInOrder(findings) && Distinct(order)
    ensures forall p :: p in byFile <==> p in order
    ensures forall p :: p in byFile ==> byFile[p] == OfFile(findings, p)
  {
    byFile := map[];
    order := [];
    for i := 0 to |findings|
      invariant order == PathsInOrder(findings[..i])
      invariant forall p :: p in byFile <==> p in order
      invariant forall p :: p in byFile ==> byFile[p] == OfFile(findings[..i], p)
    {
      var f := findings[i];
      assert findings[..i + 1][..i] == findings[..i];
      if f.filePath in byFile {
        byFile := byFile[f.filePath := byFile[f.filePath] + [f]];
      } else {
        OfFileUnseen(findings[..i], f.filePath);
        byFile := byFile[f.filePath := [f]];
        order := order + [f.filePath];
      }
    }
    assert findings[..|findings|] == findings;
    PathsInOrderFacts(findings);
  }

  /** The "FINDINGS BY FILE" part: one block per path, in the order given. */
  method WriteSections(findings: seq<Finding>, byFile: map<string, seq<Finding>>, paths: seq<string>)
    returns (lines: seq<string>)
    requires forall p :: p in paths ==> p in byFile && byFile[p] == OfFile(findings, p)
    ensures lines == Sections(findings, paths)
  {
    lines := [];
    for k := 0 to |paths|
      invariant lines == Sections(findings, paths[..k])
    {
      var p := paths[k];
      var entries := FileEntries(SortByLine(byFile[p]));
      lines := lines + ["", FileIcon + p] + entries;
      assert paths[..k + 1][..k] == paths[..k];
    }
    assert paths[..|paths|] == paths;
  }

  /** The lines written for one file's (sorted) findings. */
  method FileEntries(fs: seq<Finding>) returns (lines: seq<string>)
    ensures lines == EntriesLines(fs)
  {
    lines := [];
    for j := 0 to |fs|
      invariant lines == EntriesLines(fs[..j])
    {
      assert fs[..j + 1][..j] == fs[..j];
      lines := lines + EntryLines(fs[j]);
    }
    assert fs[..|fs|] == fs;
  }

  // ---------------------------------------------------------------------------
  // What the report says

  /** Every line of a file block is blank, a path line, or indented. */
  predicate SectionLine(l: string) {
    l == "" || l[0] == ' ' || l[0] == FileIcon[0]
  }

  lemma {:induction false} EntriesLinesShape(fs: seq<Finding>)
    ensures forall l :: l in EntriesLines(fs) ==> SectionLine(l)
  {
    if fs != [] {
      EntriesLinesShape(fs[..|fs| - 1]);
    }
  }

  lemma {:induction false} SectionsShape(fs: seq<Finding>, paths: seq<string>)
    ensures forall l :: l in Sections(fs, paths) ==> SectionLine(l)
  {
    if paths != [] {
      SectionsShape(fs, paths[..|paths| - 1]);
      EntriesLinesShape(SortByLine(OfFile(fs, paths[|paths| - 1])));
    }
  }

  /** No header line starts with a digit. */
  lemma HeaderNoDigit(total: nat, high: nat, medium: nat, info: nat)
    ensures forall l :: l in HeaderLines(total, high, medium, info) ==> l == [] || !IsDigit(l[0])
  {
    forall l | l in HeaderLines(total, high, medium, info) ensures l == [] || !IsDigit(l[0]) {
      assert l == "" || l[0] == '=' || l[0] == 'A' || l[0] == 'T' || l[0] == ' ' || l[0] == '-' || l[0] == 'F';
    }
  }

  lemma DigitNotSectionLine(h: string)
    requires |h| > 0 && IsDigit(h[0])
    ensures !SectionLine(h)
  {
  }

  lemma NotInFront<T>(h: T, a: seq<T>, b: seq<T>, c: seq<T>)
    requires h !in a && h !in b
    ensures h in a + b + c <==> h in c
  {
  }

  /** A heading that starts with a digit is never a header line nor a file-block line. */
  lemma HeadingPlacement(fs: seq<Finding>, h: string)
    requires |h| > 0 && IsDigit(h[0])
    ensures h in ReportLines(fs) <==> h in ActionLines(CountSeverity(fs, High), CountSeverity(fs, Medium))
  {
    var high, medium := CountSeverity(fs, High), CountSeverity(fs, Medium);
    var header := HeaderLines(|fs|, high, medium, CountSeverity(fs, Info));
    var sections := Sections(fs, SortedPaths(fs));
    SectionsShape(fs, SortedPaths(fs));
    HeaderNoDigit(|fs|, high, medium, CountSeverity(fs, Info));
    DigitNotSectionLine(h);
    NotInFront(h, header, sections, ActionLines(high, medium));
    assert ReportLines(fs) == header + sections + ActionLines(high, medium);
  }

  predicate StartsWith(l: string, c: char) {
    |l| > 0 && l[0] == c
  }

  predicate NoneStartsWith(ls: seq<string>, c: char) {
    forall k :: 0 <= k < |ls| ==> !StartsWith(ls[k], c)
  }

  /** Without its own block, no action line starts with the step number `c` ('1' or '2'). */
  lemma NoStepIn(c: char, other: bool)
    requires c == '1' || c == '2'
    ensures c == '1' ==> NoneStartsWith(ActionLines(0, if other then 1 else 0), c)
    ensures c == '2' ==> NoneStartsWith(ActionLines(if other then 1 else 0, 0), c)
  {
    assert Repeat('-', 70)[0] == '-' && Repeat('=', 70)[0] == '=';
    assert NoneStartsWith(ActionsTitle, c);
    assert NoneStartsWith(ClosingBlock, c);
    assert c == '1' ==> NoneStartsWith(RecommendedBlock, c);
    assert c == '2' ==> NoneStartsWith(RequiredBlock, c);
  }

  /** The "[REQUIRED]" step appears exactly when some finding is HIGH. */
  lemma RequiredIffHigh(fs: seq<Finding>)
    ensures RequiredHeading in ReportLines(fs) <==> exists k :: 0 <= k < |fs| && fs[k].severity == High
  {
    HeadingPlacement(fs, RequiredHeading);
    CountPositiveIff(fs, High);
    if CountSeverity(fs, High) == 0 {
      NoStepIn(RequiredBlock[0][0], CountSeverity(fs, Medium) > 0);
    }
  }

  /** The "[RECOMMENDED]" step appears exactly when some finding is MEDIUM. */
  lemma RecommendedIffMedium(fs: seq<Finding>)
    ensures RecommendedHeading in ReportLines(fs) <==> exists k :: 0 <= k < |fs| && fs[k].severity == Medium
  {
    HeadingPlacement(fs, RecommendedHeading);
    CountPositiveIff(fs, Medium);
    if CountSeverity(fs, Medium) == 0 {
      NoStepIn(RecommendedBlock[0][0], CountSeverity(fs, High) > 0);
    }
  }

  /**
   * The report lines always contain steps 3 and 4, whatever the counts. They are the
   * report only for a non-empty finding list; an empty list gets the banner instead.
   */
  lemma ClosingStepsAlways(fs: seq<Finding>)
    ensures AfterFixesHeading in ReportLines(fs) && TestingHeading in ReportLines(fs)
  {
    var a := ActionLines(CountSeverity(fs, High), CountSeverity(fs, Medium));
    assert a[|a| - 6] == AfterFixesHeading && a[|a| - 4] == TestingHeading;
    assert ReportLines(fs)[|ReportLines(fs)| - 6] == AfterFixesHeading;
    assert ReportLines(fs)[|ReportLines(fs)| - 4] == TestingHeading;
  }
  /**
   * The printed report of a non-empty finding list contains steps 3 and 4, the REQUIRED
   * step when some finding is HIGH and the RECOMMENDED step when some finding is MEDIUM.
   */
  lemma PrintedSteps(fs: seq<Finding>)
    requires fs != []
    ensures Occurs(AfterFixesHeading, Report(fs)) && Occurs(TestingHeading, Report(fs))
    ensures (exists k :: 0 <= k < |fs| && fs[k].severity == High) ==> Occurs(RequiredHeading, Report(fs))
    ensures (exists k :: 0 <= k < |fs| && fs[k].severity == Medium) ==> Occurs(RecommendedHeading, Report(fs))
  {
    var lines := ReportLines(fs);
    assert Report(fs) == JoinLines(lines);
    forall h | h in lines ensures Occurs(h, Report(fs)) {
      var k :| 0 <= k < |lines| && lines[k] == h;
      JoinLinesOccurs(lines, k);
    }
    ClosingStepsAlways(fs);
    RequiredIffHigh(fs);
    RecommendedIffMedium(fs);
  }


  // ---------------------------------------------------------------------------
  // The exit status of `main`

  /** 1 when some finding is HIGH, else 0. */
  function AuditExitCode(fs: seq<Finding>): (code: nat)
    ensures code == 1 <==> exists k :: 0 <= k < |fs| && fs[k].severity == High
    ensures code == 0 || code == 1
  {
    CountPositiveIff(fs, High);
    if CountSeverity(fs, High) > 0 then 1 else 0
  }

  /**
   * `main`: a missing path fails with status 1 and no report; otherwise the tree is
   * scanned with the default exclusions plus the extra ones, and the status follows the
   * HIGH findings.
   */
  method AuditMain(pathExists: bool, files: seq<SourceFile>, extraExcludes: seq<string>)
    returns (exitCode: nat, report: Option<string>)
    ensures !pathExists ==> exitCode == 1 && report == None
    ensures pathExists ==>
      var fs := TreeFindings(files, DefaultExcludes + extraExcludes);
      report == Some(Report(fs)) && exitCode == AuditExitCode(fs)
  {
    if !pathExists {
      return 1, None;
    }
    var excludes := DefaultExcludes + extraExcludes;
    var findings := ScanDirectory(files, Some(excludes));
    var text := GenerateReport(findings);
    report := Some(text);
    exitCode := AuditExitCode(findings);
  }
}
