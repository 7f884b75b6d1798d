/**
 * The fixed migration rules of the audit scanner (the `PATTERNS` table of
 * scripts/audit_codebase.py) and the search semantics of their nine patterns.
 *
 * Every pattern is searched case-insensitively anywhere in a line. Eight of the nine
 * have the shape  key \s* sep \s* value  ; the ninth is a quoted model name.
 */
module AuditRules {
  import opened Strings

  datatype Severity = High | Medium | Info {
    function Name(): string {
      match this
      case High => "HIGH"
      case Medium => "MEDIUM"
      case Info => "INFO"
    }
  }

  /** What may follow the separator of a setting pattern. */
  datatype ValueForm =
    | DigitOrDot      // [\d.]+
    | Digit           // \d+
    | Quoted2024      // ["\']2024
    | TrueOrDigit     // (True|true|\d+)
    | QuotedSystem    // ["\']system["\']

  datatype Pattern =
      /** `key \s* [=:] \s* value`, or `["\']key["\'] \s* : \s* value` when `quotedKey`. */
    | Setting(key: string, quotedKey: bool, value: ValueForm)
      /** `["\']word["\']` */
    | QuotedWord(word: string)

  /** One entry of the table: its key (the finding's issue type), pattern, severity and advice. */
  datatype Rule = Rule(issueType: string, pattern: Pattern, severity: Severity, recommendation: string)

  const RemoveAdvice := "Remove this parameter - not supported in GPT-5.1"

  /** The table, in its declaration (and hence iteration) order. */
  const Rules: seq<Rule> := [
    Rule("temperature", Setting("temperature", false, DigitOrDot), High, RemoveAdvice),
    Rule("top_p", Setting("top_p", false, DigitOrDot), High, RemoveAdvice),
    Rule("frequency_penalty", Setting("frequency_penalty", false, DigitOrDot), High, RemoveAdvice),
    Rule("presence_penalty", Setting("presence_penalty", false, DigitOrDot), High, RemoveAdvice),
    Rule("max_tokens", Setting("max_tokens", false, Digit), High, "Rename to 'max_completion_tokens'"),
    Rule("system_role", Setting("role", true, QuotedSystem), Medium,
         "Change to 'developer' role (system still works but deprecated)"),
    Rule("gpt-4o_model", QuotedWord("gpt-4o"), Info, "Update to 'gpt-5.1' after code changes are complete"),
    Rule("old_api_version", Setting("api_version", false, Quoted2024), Medium,
         "Update to api_version='2025-06-01'"),
    Rule("logprobs", Setting("logprobs", false, TrueOrDigit), High, RemoveAdvice)
  ]

  /**
   * The table has nine rules. Two are MEDIUM (the system role and the old API version),
   * one is INFO (the quoted model name) and the other six are HIGH.
   */
  lemma RulesSeverities()
    ensures |Rules| == 9
    ensures forall i :: 0 <= i < |Rules| ==>
      (Rules[i].severity == Medium <==> Rules[i].issueType in {"system_role", "old_api_version"}) &&
      (Rules[i].severity == Info <==> Rules[i].issueType == "gpt-4o_model")
  {
  }

  /**
   * Case folding as `re.IGNORECASE` applies it to the lower-case ASCII letters of the
   * patterns: upper-case ASCII letters, plus the four other letters Python's regex engine
   * equates with `i`, `s` and `k`. Every other character is left as it is.
   */
  function Fold(c: char): (r: char)
    ensures r != c ==> 'a' <= r <= 'z'
  {
    if 'A' <= c <= 'Z' then (c as int + 32) as char
    else if c == '\U{130}' || c == '\U{131}' then 'i'
    else if c == '\U{17f}' then 's'
    else if c == '\U{212a}' then 'k'
    else c
  }

  predicate IsQuote(c: char) {
    c == '"' || c == '\''
  }

  /** `w` (lower-case) occurs case-insensitively in `line` at index `i`. */
  predicate WordAt(line: string, i: nat, w: string) {
    i + |w| <= |line| && forall k :: 0 <= k < |w| ==> Fold(line[i + k]) == w[k]
  }

  predicate QuotedWordAt(line: string, i: nat, w: string) {
    i + |w| + 2 <= |line| && IsQuote(line[i]) && WordAt(line, i + 1, w) && IsQuote(line[i + 1 + |w|])
  }

  /** The value part of a setting pattern starts at index `k`. */
  predicate ValueAt(v: ValueForm, line: string, k: nat) {
    match v
    case DigitOrDot => k < |line| && (IsDigit(line[k]) || line[k] == '.')
    case Digit => k < |line| && IsDigit(line[k])
    case Quoted2024 => k < |line| && IsQuote(line[k]) && WordAt(line, k + 1, "2024")
    case TrueOrDigit => WordAt(line, k, "true") || (k < |line| && IsDigit(line[k]))
    case QuotedSystem => QuotedWordAt(line, k, "system")
  }

  predicate KeyAt(p: Pattern, line: string, i: nat)
    requires p.Setting?
  {
    if p.quotedKey then QuotedWordAt(line, i, p.key) else WordAt(line, i, p.key)
  }

  function KeyEnd(p: Pattern, i: nat): nat
    requires p.Setting?
  {
    if p.quotedKey then i + |p.key| + 2 else i + |p.key|
  }

  /** `[=:]`, or only `:` after a quoted key. */
  predicate IsSeparator(quotedKey: bool, c: char) {
    if quotedKey then c == ':' else c == '=' || c == ':'
  }

  /**
   * `\s* sep \s* value` matches from index `e`. The white space runs are skipped
   * greedily: no backtracking is needed because white space, separators and value
   * characters are disjoint (see `TailAtIsRegexTail`).
   */
  predicate TailAt(quotedKey: bool, v: ValueForm, line: string, e: nat) {
    e <= |line| &&
    var j := SkipSpaces(line, e);
    j < |line| && IsSeparator(quotedKey, line[j]) && ValueAt(v, line, SkipSpaces(line, j + 1))
  }

  /** The pattern matches at index `i`. */
  predicate MatchAt(p: Pattern, line: string, i: nat) {
    match p
    case QuotedWord(w) => QuotedWordAt(line, i, w)
    case Setting(_, q, v) => KeyAt(p, line, i) && TailAt(q, v, line, KeyEnd(p, i))
  }

  /** `re.search(pattern, line, re.IGNORECASE)` finds a match. */
  predicate Matches(p: Pattern, line: string) {
    exists i | 0 <= i <= |line| :: MatchAt(p, line, i)
  }

  /**
   * The reference reading of `\s* sep \s* value` from `e`: some choice of the two
   * white space runs (not necessarily the longest) lets the separator and the value follow.
   */
  ghost predicate RegexTailAt(quotedKey: bool, v: ValueForm, line: string, e: nat) {
    exists j, k {:trigger ValueAt(v, line, k), line[j]} ::
      e <= j < k <= |line| &&
      AllSpace(line[e..j]) && IsSeparator(quotedKey, line[j]) &&
      AllSpace(line[j + 1..k]) && ValueAt(v, line, k)
  }

  ghost predicate RegexMatchAt(p: Pattern, line: string, i: nat) {
    match p
    case QuotedWord(w) => QuotedWordAt(line, i, w)
    case Setting(_, q, v) => KeyAt(p, line, i) && RegexTailAt(q, v, line, KeyEnd(p, i))
  }

  ghost predicate RegexMatches(p: Pattern, line: string) {
    exists i :: 0 <= i <= |line| && RegexMatchAt(p, line, i)
  }

  /** A character that folds to a letter is not white space, a digit or a quote. */
  lemma FoldsToLetter(c: char)
    requires 'a' <= Fold(c) <= 'z'
    ensures !IsSpace(c) && !IsDigit(c) && !IsQuote(c)
  {
  }

  /** No value form can begin with a white-space character. */
  lemma ValueStartsWithNonSpace(v: ValueForm, line: string, k: nat)
    requires ValueAt(v, line, k)
    ensures k < |line| && !IsSpace(line[k])
  {
    if v.TrueOrDigit? && WordAt(line, k, "true") {
      var t := "true";
      assert Fold(line[k + 0]) == t[0];
      FoldsToLetter(line[k]);
    }
  }

  /** A run of white space ends at the first non-space character and no earlier. */
  lemma {:induction false} SkipSpacesIsFirstNonSpace(line: string, a: nat, j: nat)
    requires a <= j < |line|
    requires AllSpace(line[a..j]) && !IsSpace(line[j])
    ensures SkipSpaces(line, a) == j
    decreases j - a
  {
    if a < j {
      assert IsSpace(line[a..j][0]);
      assert line[a + 1..j] == line[a..j][1..];
      SkipSpacesIsFirstNonSpace(line, a + 1, j);
    }
  }

  lemma TailAtGivesRegexTail(q: bool, v: ValueForm, line: string, e: nat)
    requires TailAt(q, v, line, e)
    ensures RegexTailAt(q, v, line, e)
  {
    var j := SkipSpaces(line, e);
    var k := SkipSpaces(line, j + 1);
    ValueStartsWithNonSpace(v, line, k);
    assert AllSpace(line[e..j]);
    assert AllSpace(line[j + 1..k]);
    assert e <= j < k <= |line| &&
      AllSpace(line[e..j]) && IsSeparator(q, line[j]) &&
      AllSpace(line[j + 1..k]) && ValueAt(v, line, k);
  }

  lemma RegexTailGivesTailAt(q: bool, v: ValueForm, line: string, e: nat)
    requires RegexTailAt(q, v, line, e)
    ensures TailAt(q, v, line, e)
  {
    var j, k :| e <= j < k <= |line| &&
      AllSpace(line[e..j]) && IsSeparator(q, line[j]) &&
      AllSpace(line[j + 1..k]) && ValueAt(v, line, k);
    ValueStartsWithNonSpace(v, line, k);
    assert !IsSpace(line[j]);
    SkipSpacesIsFirstNonSpace(line, e, j);
    SkipSpacesIsFirstNonSpace(line, j + 1, k);
  }

  /** The greedy tail matcher agrees with the backtracking semantics of the regex. */
  lemma TailAtIsRegexTail(q: bool, v: ValueForm, line: string, e: nat)
    ensures TailAt(q, v, line, e) <==> RegexTailAt(q, v, line, e)
  {
    if TailAt(q, v, line, e) {
      TailAtGivesRegexTail(q, v, line, e);
    }
    if RegexTailAt(q, v, line, e) {
      RegexTailGivesTailAt(q, v, line, e);
    }
  }

  /** The searching matcher finds exactly the lines the regex finds. */
  lemma MatchesIsRegexMatches(p: Pattern, line: string)
    ensures Matches(p, line) <==> RegexMatches(p, line)
  {
    forall i | 0 <= i <= |line| ensures MatchAt(p, line, i) <==> RegexMatchAt(p, line, i) {
      if p.Setting? {
        TailAtIsRegexTail(p.quotedKey, p.value, line, KeyEnd(p, i));
      }
    }
  }

  /** Two lines that differ only in letter case. */
  predicate SameUpToCase(a: string, b: string) {
    |a| == |b| && forall k :: 0 <= k < |a| ==> Fold(a[k]) == Fold(b[k])
  }

  /** Characters with the same folding agree on everything but letter case. */
  lemma FoldNonLetter(x: char, y: char)
    requires Fold(x) == Fold(y)
    ensures IsSpace(x) <==> IsSpace(y)
    ensures IsDigit(x) <==> IsDigit(y)
    ensures IsQuote(x) <==> IsQuote(y)
    ensures (x == '=' <==> y == '=') && (x == ':' <==> y == ':') && (x == '.' <==> y == '.')
  {
  }

  lemma {:induction false} SkipSpacesSameUpToCase(a: string, b: string, i: nat)
    requires SameUpToCase(a, b) && i <= |a|
    ensures SkipSpaces(a, i) == SkipSpaces(b, i)
    decreases |a| - i
  {
    if i < |a| {
      FoldNonLetter(a[i], b[i]);
      SkipSpacesSameUpToCase(a, b, i + 1);
    }
  }

  lemma QuotedWordSameUpToCase(a: string, b: string, i: nat, w: string)
    requires SameUpToCase(a, b)
    ensures QuotedWordAt(a, i, w) <==> QuotedWordAt(b, i, w)
  {
    if i + |w| + 2 <= |a| {
      FoldNonLetter(a[i], b[i]);
      FoldNonLetter(a[i + 1 + |w|], b[i + 1 + |w|]);
    }
  }

  lemma ValueSameUpToCase(v: ValueForm, a: string, b: string, k: nat)
    requires SameUpToCase(a, b)
    ensures ValueAt(v, a, k) <==> ValueAt(v, b, k)
  {
    if k < |a| {
      FoldNonLetter(a[k], b[k]);
    }
    QuotedWordSameUpToCase(a, b, k, "system");
  }

  lemma TailSameUpToCase(q: bool, v: ValueForm, a: string, b: string, e: nat)
    requires SameUpToCase(a, b)
    ensures TailAt(q, v, a, e) <==> TailAt(q, v, b, e)
  {
    if TailAt(q, v, a, e) {
      TailCarries(q, v, a, b, e);
    }
    if TailAt(q, v, b, e) {
      assert SameUpToCase(b, a);
      TailCarries(q, v, b, a, e);
    }
  }

  lemma TailCarries(q: bool, v: ValueForm, a: string, b: string, e: nat)
    requires SameUpToCase(a, b) && TailAt(q, v, a, e)
    ensures TailAt(q, v, b, e)
  {
    SkipSpacesSameUpToCase(a, b, e);
    var j := SkipSpaces(a, e);
    SeparatorSameUpToCase(q, a[j], b[j]);
    SkipSpacesSameUpToCase(a, b, j + 1);
    ValueSameUpToCase(v, a, b, SkipSpaces(a, j + 1));
  }

  lemma SeparatorSameUpToCase(q: bool, x: char, y: char)
    requires Fold(x) == Fold(y)
    ensures IsSeparator(q, x) <==> IsSeparator(q, y)
  {
    FoldNonLetter(x, y);
  }

  /** Matching ignores letter case: a line and any re-cased copy of it match the same rules. */
  lemma MatchesIgnoresCase(p: Pattern, a: string, b: string)
    requires SameUpToCase(a, b)
    ensures Matches(p, a) <==> Matches(p, b)
  {
    forall i | 0 <= i <= |a| ensures MatchAt(p, a, i) <==> MatchAt(p, b, i) {
      match p
      case QuotedWord(w) => QuotedWordSameUpToCase(a, b, i, w);
      case Setting(key, q, v) =>
        QuotedWordSameUpToCase(a, b, i, key);
        TailSameUpToCase(q, v, a, b, KeyEnd(p, i));
    }
  }

  /** `line` occurs in `s` at offset `d`. */
  predicate OccursAt(line: string, s: string, d: nat) {
    d + |line| <= |s| && s[d..d + |line|] == line
  }

  lemma WordShift(line: string, s: string, d: nat, i: nat, w: string)
    requires OccursAt(line, s, d) && WordAt(line, i, w)
    ensures WordAt(s, d + i, w)
  {
    forall k | 0 <= k < |w| ensures Fold(s[d + i + k]) == w[k] {
      assert s[d + i + k] == s[d..d + |line|][i + k];
    }
  }

  lemma QuotedWordShift(line: string, s: string, d: nat, i: nat, w: string)
    requires OccursAt(line, s, d) && QuotedWordAt(line, i, w)
    ensures QuotedWordAt(s, d + i, w)
  {
    assert s[d + i] == s[d..d + |line|][i];
    assert s[d + i + 1 + |w|] == s[d..d + |line|][i + 1 + |w|];
    WordShift(line, s, d, i + 1, w);
  }

  lemma ValueShift(v: ValueForm, line: string, s: string, d: nat, k: nat)
    requires OccursAt(line, s, d) && ValueAt(v, line, k)
    ensures ValueAt(v, s, d + k)
  {
    if k < |line| {
      assert s[d + k] == s[d..d + |line|][k];
    }
    match v
    case QuotedSystem => QuotedWordShift(line, s, d, k, "system");
    case Quoted2024 => WordShift(line, s, d, k + 1, "2024");
    case TrueOrDigit =>
      if WordAt(line, k, "true") {
        WordShift(line, s, d, k, "true");
      }
    case _ =>
  }

  lemma AllSpaceShift(line: string, s: string, d: nat, a: nat, b: nat)
    requires OccursAt(line, s, d) && a <= b <= |line| && AllSpace(line[a..b])
    ensures AllSpace(s[d + a..d + b])
  {
    var u := s[d + a..d + b];
    forall m | 0 <= m < |u| ensures IsSpace(u[m]) {
      assert u[m] == s[d..d + |line|][a + m] == line[a..b][m];
    }
  }

  /** Shifting a text into a longer one keeps a regex tail match found in it. */
  lemma RegexTailShift(q: bool, v: ValueForm, line: string, s: string, d: nat, e: nat)
    requires OccursAt(line, s, d)
    requires RegexTailAt(q, v, line, e)
    ensures RegexTailAt(q, v, s, d + e)
  {
    var j, k :| e <= j < k <= |line| &&
      AllSpace(line[e..j]) && IsSeparator(q, line[j]) &&
      AllSpace(line[j + 1..k]) && ValueAt(v, line, k);
    assert s[d + j] == s[d..d + |line|][j];
    AllSpaceShift(line, s, d, e, j);
    AllSpaceShift(line, s, d, j + 1, k);
    ValueShift(v, line, s, d, k);
    assert d + e <= d + j < d + k <= |s| &&
      AllSpace(s[d + e..d + j]) && IsSeparator(q, s[d + j]) &&
      AllSpace(s[d + j + 1..d + k]) && ValueAt(v, s, d + k);
  }

  lemma RegexMatchAtShift(p: Pattern, line: string, s: string, d: nat, i: nat)
    requires OccursAt(line, s, d) && RegexMatchAt(p, line, i)
    ensures RegexMatchAt(p, s, d + i)
  {
    match p
    case QuotedWord(w) =>
      QuotedWordShift(line, s, d, i, w);
    case Setting(key, q, v) =>
      if q {
        QuotedWordShift(line, s, d, i, key);
      } else {
        WordShift(line, s, d, i, key);
      }
      assert KeyEnd(p, d + i) == d + KeyEnd(p, i);
      RegexTailShift(q, v, line, s, d, KeyEnd(p, i));
  }

  /** Matching is a search: a match is still found when the line is embedded in more text. */
  lemma MatchesAnywhere(p: Pattern, line: string, before: string, after: string)
    requires Matches(p, line)
    ensures Matches(p, before + line + after)
  {
    var s := before + line + after;
    var d := |before|;
    assert s[d..d + |line|] == line;
    MatchesIsRegexMatches(p, line);
    var i :| 0 <= i <= |line| && RegexMatchAt(p, line, i);
    RegexMatchAtShift(p, line, s, d, i);
    assert 0 <= d + i <= |s| && RegexMatchAt(p, s, d + i);
    MatchesIsRegexMatches(p, s);
  }

  // ---------------------------------------------------------------------------
  // Digits versus digits-or-dots

  /** `temperature` accepts a value that starts with a dot, in any letter case of the line. */
  lemma TemperatureAcceptsDot(line: string)
    requires SameUpToCase(line, "Temperature = .5")
    ensures Matches(Rules[0].pattern, line)
  {
    var base := "Temperature = .5";
    assert SkipSpaces(base, 11) == 12;
    assert SkipSpaces(base, 13) == 14;
    assert WordAt(base, 0, "temperature");
    assert MatchAt(Rules[0].pattern, base, 0);
    assert SameUpToCase(base, line);
    MatchesIgnoresCase(Rules[0].pattern, base, line);
  }

  /** `max_tokens` insists on a digit (`\d+`): the same value starting with a dot is not flagged. */
  lemma MaxTokensNeedsDigit()
    ensures !Matches(Rules[4].pattern, "max_tokens=.5")
  {
    var line := "max_tokens=.5";
    var p := Rules[4].pattern;
    assert p == Setting("max_tokens", false, Digit);
    forall i | 0 <= i <= |line| ensures !MatchAt(p, line, i) {
      if i == 0 {
        assert SkipSpaces(line, 10) == 10;
        assert SkipSpaces(line, 11) == 11;
      } else if i + 10 <= |line| {
        assert Fold(line[i]) != 'm';
      }
    }
  }
}
