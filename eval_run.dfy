/**
 * `MigrationEvaluator.run_comparison` and `main` of the evaluation script: test cases from
 * the dataset lines, both models' responses scored case by case, per-metric score lists,
 * their summaries, the regression list and the exit status.
 */
module EvalRun {
  import opened Wrappers
  import opened Strings
  import opened EvalScoring
  import opened EvalStats

  // ---------------------------------------------------------------------------
  // Test cases

  /** One parsed dataset record; a field is None when its key is absent. */
  datatype TestCase = TestCase(
    testId: Option<string>,
    query: Option<string>,
    context: Option<string>,
    groundTruth: Option<string>,
    expectedOutput: Option<string>)

  function QueryOf(tc: TestCase): string {
    tc.query.GetOr("")
  }

  function ContextOf(tc: TestCase): string {
    tc.context.GetOr("")
  }

  /** `tc.get("ground_truth", tc.get("expected_output", ""))`. */
  function GroundTruthOf(tc: TestCase): (g: string)
    ensures tc.groundTruth.Some? ==> g == tc.groundTruth.value
    ensures tc.groundTruth.None? && tc.expectedOutput.Some? ==> g == tc.expectedOutput.value
    ensures tc.groundTruth.None? && tc.expectedOutput.None? ==> g == ""
  {
    tc.groundTruth.GetOr(tc.expectedOutput.GetOr(""))
  }

  /** `tc.get("test_id", f"test_{i}")`. */
  function TestIdOf(tc: TestCase, i: nat): (id: string)
    ensures tc.testId.Some? ==> id == tc.testId.value
    ensures tc.testId.None? ==> id == "test_" + NatToString(i)
  {
    tc.testId.GetOr("test_" + NatToString(i))
  }

  /** The lines holding something besides white space, in order. */
  function NonBlank(lines: seq<string>): seq<string> {
    if lines == [] then []
    else NonBlank(lines[..|lines| - 1]) + (if Strip(lines[|lines| - 1]) != "" then [lines[|lines| - 1]] else [])
  }

  /** Parse every line; None as soon as one does not parse (`json.loads` raising). */
  function ParseAll(ls: seq<string>, parse: string -> Option<TestCase>): Option<seq<TestCase>> {
    if ls == [] then Some([])
    else match ParseAll(ls[..|ls| - 1], parse)
      case None => None
      case Some(cs) =>
        match parse(ls[|ls| - 1])
        case None => None
        case Some(c) => Some(cs + [c])
  }

  /** The test cases of a dataset, or None when it does not load. */
  function Dataset(lines: seq<string>, parse: string -> Option<TestCase>): Option<seq<TestCase>> {
    ParseAll(NonBlank(lines), parse)
  }

  lemma {:induction false} NonBlankMembers(lines: seq<string>)
    ensures forall l :: l in NonBlank(lines) <==> l in lines && Strip(l) != ""
  {
    if lines != [] {
      NonBlankMembers(lines[..|lines| - 1]);
      assert lines == lines[..|lines| - 1] + [lines[|lines| - 1]];
    }
  }

  lemma {:induction false} ParseAllFacts(ls: seq<string>, parse: string -> Option<TestCase>)
    ensures ParseAll(ls, parse) == None <==> exists j :: 0 <= j < |ls| && parse(ls[j]) == None
    ensures ParseAll(ls, parse).Some? ==>
      var cs := ParseAll(ls, parse).value;
      |cs| == |ls| && forall j :: 0 <= j < |ls| ==> parse(ls[j]) == Some(cs[j])
  {
    if ls != [] {
      var init := ls[..|ls| - 1];
      ParseAllFacts(init, parse);
      assert forall j :: 0 <= j < |init| ==> init[j] == ls[j];
      if exists j :: 0 <= j < |init| && parse(init[j]) == None {
        var j :| 0 <= j < |init| && parse(init[j]) == None;
        assert parse(ls[j]) == None;
      }
    }
  }

  /**
   * A dataset loads exactly when every non-blank line parses; then it holds one test case
   * per non-blank line, in file order.
   */
  lemma DatasetFacts(lines: seq<string>, parse: string -> Option<TestCase>)
    ensures Dataset(lines, parse) == None <==> exists l :: l in lines && Strip(l) != "" && parse(l) == None
    ensures Dataset(lines, parse).Some? ==>
      var cs := Dataset(lines, parse).value;
      |cs| == |NonBlank(lines)| && forall j :: 0 <= j < |cs| ==> parse(NonBlank(lines)[j]) == Some(cs[j])
  {
    NonBlankMembers(lines);
    ParseAllFacts(NonBlank(lines), parse);
    var nb := NonBlank(lines);
    if exists l :: l in lines && Strip(l) != "" && parse(l) == None {
      var l :| l in lines && Strip(l) != "" && parse(l) == None;
      var j :| 0 <= j < |nb| && nb[j] == l;
      assert parse(nb[j]) == None;
    }
  }

  lemma NonBlankStep(lines: seq<string>, i: nat)
    requires i < |lines|
    ensures Strip(lines[i]) != "" ==> NonBlank(lines[..i + 1]) == NonBlank(lines[..i]) + [lines[i]]
    ensures Strip(lines[i]) == "" ==> NonBlank(lines[..i + 1]) == NonBlank(lines[..i])
  {
    assert lines[..i + 1][..i] == lines[..i];
    assert NonBlank(lines[..i]) + [] == NonBlank(lines[..i]);
  }

  lemma ParseAllStep(ls: seq<string>, l: string, parse: string -> Option<TestCase>)
    ensures ParseAll(ls + [l], parse) ==
      match ParseAll(ls, parse)
      case None => None
      case Some(cs) => if parse(l).Some? then Some(cs + [parse(l).value]) else None
  {
    assert (ls + [l])[..|ls|] == ls;
  }

  /** Reading the dataset file, given as its lines. */
  method LoadDataset(lines: seq<string>, parse: string -> Option<TestCase>) returns (cases: Option<seq<TestCase>>)
    ensures cases == Dataset(lines, parse)
  {
    var acc: seq<TestCase> := [];
    for i := 0 to |lines|
      invariant Dataset(lines[..i], parse) == Some(acc)
    {
      NonBlankStep(lines, i);
      if Strip(lines[i]) != "" {
        var parsed := parse(lines[i]);
        if parsed.None? {
          DatasetFacts(lines, parse);
          return None;
        }
        ParseAllStep(NonBlank(lines[..i]), lines[i], parse);
        acc := acc + [parsed.value];
      }
    }
    assert lines[..|lines|] == lines;
    cases := Some(acc);
  }

  // ---------------------------------------------------------------------------
  // One test case

  datatype ModelLabel = Gpt4o | Gpt51

  /** A model's answer to (query, context); None when the client call raised. */
  type Generator = (nat, ModelLabel, string, string) -> Option<string>

  /** The evaluators as seen for one test case and one model. */
  type Judge = nat -> ModelLabel -> EvalCall -> EvalOutcome

  datatype ModelResult = ModelResult(response: string, scores: map<Metric, real>)

  /** The `test_result` record of a test case. */
  datatype TestResult = TestResult(testId: string, query: string, gpt4o: ModelResult, gpt51: ModelResult) {
    function ForModel(model: ModelLabel): ModelResult {
      match model
      case Gpt4o => gpt4o
      case Gpt51 => gpt51
    }
  }

  /** The response of a model: "" when generation failed. */
  function ResponseOf(gen: Generator, i: nat, model: ModelLabel, tc: TestCase): (r: string)
    ensures gen(i, model, QueryOf(tc), ContextOf(tc)) == None ==> r == ""
    ensures gen(i, model, QueryOf(tc), ContextOf(tc)).Some? ==> r == gen(i, model, QueryOf(tc), ContextOf(tc)).value
  {
    gen(i, model, QueryOf(tc), ContextOf(tc)).GetOr("")
  }

  function ModelResultOf(gen: Generator, judge: Judge, i: nat, model: ModelLabel, tc: TestCase): ModelResult {
    var response := ResponseOf(gen, i, model, tc);
    ModelResult(response, ScoresFor(Evaluators, judge(i)(model), QueryOf(tc), response, ContextOf(tc), GroundTruthOf(tc)))
  }

  function ResultOf(gen: Generator, judge: Judge, i: nat, tc: TestCase): TestResult {
    TestResult(TestIdOf(tc, i), QueryOf(tc), ModelResultOf(gen, judge, i, Gpt4o, tc), ModelResultOf(gen, judge, i, Gpt51, tc))
  }

  /** Generate, evaluate and record one test case (the body of the loop of `run_comparison`). */
  method RunCase(gen: Generator, judge: Judge, i: nat, tc: TestCase) returns (r: TestResult)
    ensures r == ResultOf(gen, judge, i, tc)
  {
    var query := QueryOf(tc);
    var context := ContextOf(tc);
    var groundTruth := GroundTruthOf(tc);
    var response4o := "";
    var generated4o := gen(i, Gpt4o, query, context);
    if generated4o.Some? {
      response4o := generated4o.value;
    }
    var response51 := "";
    var generated51 := gen(i, Gpt51, query, context);
    if generated51.Some? {
      response51 := generated51.value;
    }
    var scores4o := EvaluateResponse(judge(i)(Gpt4o), query, response4o, context, groundTruth);
    var scores51 := EvaluateResponse(judge(i)(Gpt51), query, response51, context, groundTruth);
    r := TestResult(TestIdOf(tc, i), query, ModelResult(response4o, scores4o), ModelResult(response51, scores51));
  }

  /** The records of the first `n` test cases. */
  function Results(gen: Generator, judge: Judge, cases: seq<TestCase>, n: nat): (rs: seq<TestResult>)
    requires n <= |cases|
    ensures |rs| == n
  {
    if n == 0 then [] else Results(gen, judge, cases, n - 1) + [ResultOf(gen, judge, n - 1, cases[n - 1])]
  }

  /** One record per test case, in order, each with the case's id and query. */
  lemma {:induction false} ResultsFacts(gen: Generator, judge: Judge, cases: seq<TestCase>, n: nat)
    requires n <= |cases|
    ensures forall j :: 0 <= j < n ==> Results(gen, judge, cases, n)[j] == ResultOf(gen, judge, j, cases[j])
    ensures forall j :: 0 <= j < n ==>
      Results(gen, judge, cases, n)[j].testId == TestIdOf(cases[j], j) &&
      Results(gen, judge, cases, n)[j].query == QueryOf(cases[j])
  {
    if n > 0 {
      ResultsFacts(gen, judge, cases, n - 1);
    }
  }

  // ---------------------------------------------------------------------------
  // Score lists and summaries

  /** The score list of metric `m` for a model: one entry per record holding that metric. */
  function Column(rs: seq<TestResult>, model: ModelLabel, m: Metric): seq<real> {
    if rs == [] then []
    else
      var s := rs[|rs| - 1].ForModel(model).scores;
      Column(rs[..|rs| - 1], model, m) + (if m in s then [s[m]] else [])
  }

  /** The number of test cases with a non-empty ground truth. */
  function WithGroundTruth(cases: seq<TestCase>): nat {
    if cases == [] then 0
    else WithGroundTruth(cases[..|cases| - 1]) + (if GroundTruthOf(cases[|cases| - 1]) != "" then 1 else 0)
  }

  /**
   * Each list grows by one per test case whose scores hold the metric: coherence, fluency,
   * relevance and groundedness have one score per test case, similarity one per case with a
   * ground truth, for both models alike.
   */
  lemma ColumnLength(gen: Generator, judge: Judge, cases: seq<TestCase>, model: ModelLabel, m: Metric)
    ensures m != Similarity ==> |Column(Results(gen, judge, cases, |cases|), model, m)| == |cases|
    ensures m == Similarity ==> |Column(Results(gen, judge, cases, |cases|), model, m)| == WithGroundTruth(cases)
  {
    var rs := Results(gen, judge, cases, |cases|);
    ResultsFacts(gen, judge, cases, |cases|);
    forall j | 0 <= j < |rs|
      ensures m in rs[j].ForModel(model).scores <==> !(m == Similarity && GroundTruthOf(cases[j]) == "")
    {
      assert rs[j].ForModel(model) == ModelResultOf(gen, judge, j, model, cases[j]);
      ScoresHas(gen, judge, j, model, cases[j], m);
    }
    ColumnCount(rs, cases, model, m);
  }

  lemma {:induction false} ColumnCount(rs: seq<TestResult>, cases: seq<TestCase>, model: ModelLabel, m: Metric)
    requires |rs| == |cases|
    requires forall j :: 0 <= j < |rs| ==>
      (m in rs[j].ForModel(model).scores <==> !(m == Similarity && GroundTruthOf(cases[j]) == ""))
    ensures m != Similarity ==> |Column(rs, model, m)| == |rs|
    ensures m == Similarity ==> |Column(rs, model, m)| == WithGroundTruth(cases)
  {
    if rs != [] {
      var k := |rs| - 1;
      ColumnCount(rs[..k], cases[..k], model, m);
    }
  }

  /** A case's scores for a model hold every metric but similarity without a ground truth. */
  lemma ScoresHas(gen: Generator, judge: Judge, i: nat, model: ModelLabel, tc: TestCase, m: Metric)
    ensures m in ModelResultOf(gen, judge, i, model, tc).scores <==> !(m == Similarity && GroundTruthOf(tc) == "")
  {
    ScoresFacts(judge(i)(model), QueryOf(tc), ResponseOf(gen, i, model, tc), ContextOf(tc), GroundTruthOf(tc), m);
  }

  /** A failed generation is recorded as the response "" and still scored like any other response. */
  lemma FailedGenerationScored(gen: Generator, judge: Judge, i: nat, model: ModelLabel, tc: TestCase, m: Metric)
    requires gen(i, model, QueryOf(tc), ContextOf(tc)) == None
    ensures ModelResultOf(gen, judge, i, model, tc).response == ""
    ensures m in ModelResultOf(gen, judge, i, model, tc).scores <==> !(m == Similarity && GroundTruthOf(tc) == "")
  {
    ScoresHas(gen, judge, i, model, tc, m);
  }

  lemma ColumnAppend(rs: seq<TestResult>, r: TestResult, model: ModelLabel, m: Metric)
    ensures Column(rs + [r], model, m) ==
      Column(rs, model, m) + (if m in r.ForModel(model).scores then [r.ForModel(model).scores[m]] else [])
  {
    assert (rs + [r])[..|rs|] == rs;
  }

  /** The summary entries of a model over the metrics `ms`, in order: only for non-empty lists. */
  function SummariesOver(ms: seq<Metric>, rs: seq<TestResult>, model: ModelLabel): map<Metric, Summary> {
    if ms == [] then map[]
    else
      var m := ms[|ms| - 1];
      var prev := SummariesOver(ms[..|ms| - 1], rs, model);
      var xs := Column(rs, model, m);
      if xs != [] then prev[m := Summarize(xs).value] else prev
  }

  lemma {:induction false} SummariesOverFacts(ms: seq<Metric>, rs: seq<TestResult>, model: ModelLabel, m: Metric)
    ensures m in SummariesOver(ms, rs, model) <==> m in ms && Column(rs, model, m) != []
    ensures m in SummariesOver(ms, rs, model) ==> SummariesOver(ms, rs, model)[m] == Summarize(Column(rs, model, m)).value
  {
    if ms != [] {
      var init, last := ms[..|ms| - 1], ms[|ms| - 1];
      SummariesOverFacts(init, rs, model, m);
      assert m in ms <==> m in init || m == last by {
        assert ms == init + [last];
      }
    }
  }

  /**
   * The summary entry of a metric exists exactly when its list is non-empty. It then holds
   * the list's mean, a minimum and a maximum that occur in the list and bound every score,
   * and min <= mean <= max.
   */
  lemma SummaryFacts(rs: seq<TestResult>, model: ModelLabel, m: Metric)
    ensures m in SummariesOver(Evaluators, rs, model) <==> Column(rs, model, m) != []
    ensures m in SummariesOver(Evaluators, rs, model) ==>
      var e := SummariesOver(Evaluators, rs, model)[m];
      e.min <= e.mean <= e.max && e.mean == Mean(Column(rs, model, m))
    ensures m in SummariesOver(Evaluators, rs, model) ==>
      var e, col := SummariesOver(Evaluators, rs, model)[m], Column(rs, model, m);
      e.min in col && e.max in col && forall k :: 0 <= k < |col| ==> e.min <= col[k] <= e.max
  {
    EvaluatorsComplete(m);
    SummariesOverFacts(Evaluators, rs, model, m);
  }

  /** A `regressions` record. */
  datatype Regression = Regression(metric: Metric, baselineMean: real, candidateMean: real, dropPercent: real)

  /** Both lists non-empty and the GPT-5.1 mean more than ten percent below a positive GPT-4o mean. */
  predicate Flagged(rs: seq<TestResult>, m: Metric) {
    Column(rs, Gpt4o, m) != [] && Column(rs, Gpt51, m) != [] &&
    IsRegression(Mean(Column(rs, Gpt4o, m)), Mean(Column(rs, Gpt51, m)))
  }

  function RegressionOf(rs: seq<TestResult>, m: Metric): Regression
    requires Flagged(rs, m)
  {
    var base := Mean(Column(rs, Gpt4o, m));
    var cand := Mean(Column(rs, Gpt51, m));
    Regression(m, base, cand, DropPercent(base, cand))
  }

  /** The summary loop's regression records over the metrics `ms`, in their order. */
  function RegressionsOver(ms: seq<Metric>, rs: seq<TestResult>): (r: seq<Regression>)
    ensures |r| <= |ms|
    ensures forall i :: 0 <= i < |r| ==> Flagged(rs, r[i].metric)
  {
    if ms == [] then []
    else
      var m := ms[|ms| - 1];
      RegressionsOver(ms[..|ms| - 1], rs) + (if Flagged(rs, m) then [RegressionOf(rs, m)] else [])
  }

  /** The regression records among the first `k` evaluators are those of flagged metrics, in evaluator order. */
  lemma {:induction false} RegressionsOverSound(rs: seq<TestResult>, k: nat)
    requires k <= |Evaluators|
    ensures var regs := RegressionsOver(Evaluators[..k], rs);
      (forall i :: 0 <= i < |regs| ==>
        MetricIndex(regs[i].metric) < k && Flagged(rs, regs[i].metric) && regs[i] == RegressionOf(rs, regs[i].metric)) &&
      (forall i, j :: 0 <= i < j < |regs| ==> MetricIndex(regs[i].metric) < MetricIndex(regs[j].metric))
  {
    if k > 0 {
      RegressionsOverSound(rs, k - 1);
      var m := Evaluators[k - 1];
      assert MetricIndex(m) == k - 1 by {
        EvaluatorsComplete(m);
      }
      RegressionsPrefixStep(rs, k);
    }
  }

  lemma RegressionsPrefixStep(rs: seq<TestResult>, k: nat)
    requires 0 < k <= |Evaluators|
    ensures RegressionsOver(Evaluators[..k], rs) == RegressionsOver(Evaluators[..k - 1], rs) +
      (if Flagged(rs, Evaluators[k - 1]) then [RegressionOf(rs, Evaluators[k - 1])] else [])
  {
    assert Evaluators[..k][..k - 1] == Evaluators[..k - 1];
  }

  /** Every flagged metric of `ms` has a regression record. */
  lemma {:induction false} RegressionsOverComplete(ms: seq<Metric>, rs: seq<TestResult>, n: Metric)
    requires n in ms && Flagged(rs, n)
    ensures exists i :: 0 <= i < |RegressionsOver(ms, rs)| && RegressionsOver(ms, rs)[i].metric == n
  {
    var init, last := ms[..|ms| - 1], ms[|ms| - 1];
    var prev := RegressionsOver(init, rs);
    var regs := RegressionsOver(ms, rs);
    assert regs == prev + (if Flagged(rs, last) then [RegressionOf(rs, last)] else []);
    if last == n {
      assert regs[|regs| - 1].metric == n;
    } else {
      assert n in init by {
        assert ms == init + [last];
      }
      RegressionsOverComplete(init, rs, n);
      var i :| 0 <= i < |prev| && prev[i].metric == n;
      assert regs[i] == prev[i];
    }
  }

  /**
   * A regression is recorded for a metric exactly when it is flagged; each record carries the
   * two means and a drop of more than ten percent; records follow evaluator order.
   */
  lemma RegressionsCorrect(rs: seq<TestResult>, m: Metric)
    ensures (exists i :: 0 <= i < |RegressionsOver(Evaluators, rs)| && RegressionsOver(Evaluators, rs)[i].metric == m) <==>
      Flagged(rs, m)
    ensures forall i :: 0 <= i < |RegressionsOver(Evaluators, rs)| ==>
      var g := RegressionsOver(Evaluators, rs)[i];
      Flagged(rs, g.metric) && g == RegressionOf(rs, g.metric) && g.dropPercent > 10.0
    ensures forall i, j :: 0 <= i < j < |RegressionsOver(Evaluators, rs)| ==>
      MetricIndex(RegressionsOver(Evaluators, rs)[i].metric) < MetricIndex(RegressionsOver(Evaluators, rs)[j].metric)
  {
    RegressionsOverSound(rs, |Evaluators|);
    assert Evaluators[..|Evaluators|] == Evaluators;
    var regs := RegressionsOver(Evaluators[..|Evaluators|], rs);
    assert regs == RegressionsOver(Evaluators, rs);
    if Flagged(rs, m) {
      EvaluatorsComplete(m);
      RegressionsOverComplete(Evaluators, rs, m);
    }
    forall i | 0 <= i < |regs| ensures regs[i].dropPercent > 10.0 {
      var n := regs[i].metric;
      assert Flagged(rs, n);
    }
  }

  // ---------------------------------------------------------------------------
  // The whole run

  datatype RunResults = RunResults(
    testCases: seq<TestResult>,
    gpt4o: map<Metric, Summary>,
    gpt51: map<Metric, Summary>,
    regressions: seq<Regression>)

  /** The `results` dictionary of `run_comparison` (without timestamp and dataset path). */
  function Comparison(gen: Generator, judge: Judge, cases: seq<TestCase>): RunResults {
    var rs := Results(gen, judge, cases, |cases|);
    RunResults(rs, SummariesOver(Evaluators, rs, Gpt4o), SummariesOver(Evaluators, rs, Gpt51), RegressionsOver(Evaluators, rs))
  }

  /** The score lists of both models, one per evaluator. */
  predicate ListsOf(rs: seq<TestResult>, lists4o: map<Metric, seq<real>>, lists51: map<Metric, seq<real>>) {
    forall m: Metric :: m in lists4o && m in lists51 && lists4o[m] == Column(rs, Gpt4o, m) && lists51[m] == Column(rs, Gpt51, m)
  }

  /** The accumulation loop: append each metric's score where the case has one. */
  method Accumulate(lists: map<Metric, seq<real>>, scores: map<Metric, real>) returns (next: map<Metric, seq<real>>)
    requires forall m: Metric :: m in lists
    ensures forall m: Metric :: m in next && next[m] == lists[m] + (if m in scores then [scores[m]] else [])
  {
    next := lists;
    for k := 0 to |Evaluators|
      invariant forall m: Metric :: m in next
      invariant forall m: Metric :: next[m] == lists[m] + (if MetricIndex(m) < k && m in scores then [scores[m]] else [])
    {
      var m := Evaluators[k];
      assert MetricIndex(m) == k by {
        EvaluatorsComplete(m);
      }
      if m in scores {
        next := next[m := next[m] + [scores[m]]];
      }
    }
  }

  /** `run_comparison` on the loaded test cases. */
  method RunComparison(gen: Generator, judge: Judge, cases: seq<TestCase>) returns (results: RunResults)
    ensures results == Comparison(gen, judge, cases)
  {
    var testResults: seq<TestResult> := [];
    var lists4o: map<Metric, seq<real>> := map m: Metric | m in Evaluators :: [];
    var lists51: map<Metric, seq<real>> := map m: Metric | m in Evaluators :: [];
    forall m: Metric ensures m in Evaluators {
      EvaluatorsComplete(m);
    }
    for i := 0 to |cases|
      invariant testResults == Results(gen, judge, cases, i)
      invariant ListsOf(testResults, lists4o, lists51)
    {
      var r := RunCase(gen, judge, i, cases[i]);
      ghost var prev := testResults;
      testResults := testResults + [r];
      lists4o := Accumulate(lists4o, r.gpt4o.scores);
      lists51 := Accumulate(lists51, r.gpt51.scores);
      forall m: Metric
        ensures lists4o[m] == Column(testResults, Gpt4o, m) && lists51[m] == Column(testResults, Gpt51, m)
      {
        ColumnAppend(prev, r, Gpt4o, m);
        ColumnAppend(prev, r, Gpt51, m);
      }
    }
    var summary4o, summary51, regressions := Summaries(testResults, lists4o, lists51);
    results := RunResults(testResults, summary4o, summary51, regressions);
  }

  /** The summary loop of `run_comparison`, over the accumulated lists. */
  method Summaries(rs: seq<TestResult>, lists4o: map<Metric, seq<real>>, lists51: map<Metric, seq<real>>)
    returns (summary4o: map<Metric, Summary>, summary51: map<Metric, Summary>, regressions: seq<Regression>)
    requires ListsOf(rs, lists4o, lists51)
    ensures summary4o == SummariesOver(Evaluators, rs, Gpt4o)
    ensures summary51 == SummariesOver(Evaluators, rs, Gpt51)
    ensures regressions == RegressionsOver(Evaluators, rs)
  {
    summary4o, summary51, regressions := map[], map[], [];
    for k := 0 to |Evaluators|
      invariant summary4o == SummariesOver(Evaluators[..k], rs, Gpt4o)
      invariant summary51 == SummariesOver(Evaluators[..k], rs, Gpt51)
      invariant regressions == RegressionsOver(Evaluators[..k], rs)
    {
      var m := Evaluators[k];
      assert Evaluators[..k + 1] == Evaluators[..k] + [m];
      SummariesStep(Evaluators[..k], m, rs, Gpt4o);
      SummariesStep(Evaluators[..k], m, rs, Gpt51);
      RegressionsStep(Evaluators[..k], m, rs);
      var xs4o, xs51 := lists4o[m], lists51[m];
      if xs4o != [] {
        summary4o := summary4o[m := Summarize(xs4o).value];
      }
      if xs51 != [] {
        summary51 := summary51[m := Summarize(xs51).value];
      }
      if xs4o != [] && xs51 != [] {
        var mean4o := summary4o[m].mean;
        var mean51 := summary51[m].mean;
        assert mean4o == Mean(Column(rs, Gpt4o, m)) && mean51 == Mean(Column(rs, Gpt51, m));
        if IsRegression(mean4o, mean51) {
          regressions := regressions + [Regression(m, mean4o, mean51, DropPercent(mean4o, mean51))];
        }
      }
    }
    assert Evaluators[..|Evaluators|] == Evaluators;
  }

  lemma SummariesStep(ms: seq<Metric>, m: Metric, rs: seq<TestResult>, model: ModelLabel)
    ensures Column(rs, model, m) != [] ==>
      SummariesOver(ms + [m], rs, model) == SummariesOver(ms, rs, model)[m := Summarize(Column(rs, model, m)).value]
    ensures Column(rs, model, m) == [] ==> SummariesOver(ms + [m], rs, model) == SummariesOver(ms, rs, model)
  {
    assert (ms + [m])[..|ms|] == ms;
  }

  lemma RegressionsStep(ms: seq<Metric>, m: Metric, rs: seq<TestResult>)
    ensures Flagged(rs, m) ==> RegressionsOver(ms + [m], rs) == RegressionsOver(ms, rs) + [RegressionOf(rs, m)]
    ensures !Flagged(rs, m) ==> RegressionsOver(ms + [m], rs) == RegressionsOver(ms, rs)
  {
    assert (ms + [m])[..|ms|] == ms;
    assert RegressionsOver(ms, rs) + [] == RegressionsOver(ms, rs);
  }

  // ---------------------------------------------------------------------------
  // main

  /** 1 when a regression was recorded, else 0. */
  function EvalExitCode(results: RunResults): (code: nat)
    ensures code == 1 <==> results.regressions != []
    ensures code == 0 || code == 1
  {
    if results.regressions != [] then 1 else 0
  }

  /** Some regression is recorded exactly when some metric is flagged. */
  lemma RegressionsNonEmptyIff(rs: seq<TestResult>)
    ensures RegressionsOver(Evaluators, rs) != [] <==> exists m :: Flagged(rs, m)
  {
    var regs := RegressionsOver(Evaluators, rs);
    if regs != [] {
      var m := regs[0].metric;
      RegressionsCorrect(rs, m);
      assert Flagged(rs, m);
    }
    if exists m :: Flagged(rs, m) {
      var m :| Flagged(rs, m);
      RegressionsCorrect(rs, m);
    }
  }

  /**
   * The run fails exactly when some metric is flagged as a regression (for results whose
   * regression list is the one computed from their test records, as `Comparison` builds them).
   */
  lemma ExitCodeIffFlagged(r: RunResults)
    requires r.regressions == RegressionsOver(Evaluators, r.testCases)
    ensures EvalExitCode(r) == 1 <==> exists m :: Flagged(r.testCases, m)
  {
    RegressionsNonEmptyIff(r.testCases);
  }

  /** Both settings present and non-empty. */
  predicate EnvironmentReady(endpoint: Option<string>, apiKey: Option<string>) {
    endpoint.Some? && endpoint.value != "" && apiKey.Some? && apiKey.value != ""
  }

  /**
   * `main`: status 1 without results when the endpoint or key is missing, when the dataset
   * file is missing, or when a dataset line does not parse (the exception escapes `main`);
   * otherwise the status follows the regressions of the run.
   */
  method EvalMain(endpoint: Option<string>, apiKey: Option<string>, datasetExists: bool,
                  lines: seq<string>, parse: string -> Option<TestCase>, gen: Generator, judge: Judge)
    returns (exitCode: nat, results: Option<RunResults>)
    ensures !EnvironmentReady(endpoint, apiKey) || !datasetExists || Dataset(lines, parse) == None ==>
      exitCode == 1 && results == None
    ensures EnvironmentReady(endpoint, apiKey) && datasetExists && Dataset(lines, parse).Some? ==>
      var r := Comparison(gen, judge, Dataset(lines, parse).value);
      results == Some(r) && exitCode == EvalExitCode(r)
  {
    if !EnvironmentReady(endpoint, apiKey) {
      return 1, None;
    }
    if !datasetExists {
      return 1, None;
    }
    var cases := LoadDataset(lines, parse);
    if cases.None? {
      return 1, None;
    }
    var r := RunComparison(gen, judge, cases.value);
    results := Some(r);
    exitCode := EvalExitCode(r);
  }
}
