/**
 * How one response is scored (`MigrationEvaluator.evaluate_response`): which inputs each of
 * the five evaluators receives, when similarity is skipped, and how an evaluator's raw
 * result becomes a score.
 */
module EvalScoring {
  import opened Wrappers

  /** The five evaluators, keyed by metric name. */
  datatype Metric = Coherence | Fluency | Relevance | Groundedness | Similarity {
    function Name(): string {
      match this
      case Coherence => "coherence"
      case Fluency => "fluency"
      case Relevance => "relevance"
      case Groundedness => "groundedness"
      case Similarity => "similarity"
    }
  }

  /** The key order of the `evaluators` dictionary. */
  const Evaluators: seq<Metric> := [Coherence, Fluency, Relevance, Groundedness, Similarity]

  /** Position of a metric in `Evaluators`. */
  function MetricIndex(m: Metric): (k: nat)
    ensures k < |Evaluators| && Evaluators[k] == m
  {
    match m
    case Coherence => 0
    case Fluency => 1
    case Relevance => 2
    case Groundedness => 3
    case Similarity => 4
  }

  /** Every metric is listed, each once. */
  lemma EvaluatorsComplete(m: Metric)
    ensures m in Evaluators
    ensures forall k :: 0 <= k < |Evaluators| && Evaluators[k] == m ==> k == MetricIndex(m)
  {
    assert Evaluators[MetricIndex(m)] == m;
  }

  const NoContextText := "No additional context provided."

  /** The keyword argument an evaluator gets besides `query` and `response`. */
  datatype Extra = NoExtra | Context(context: string) | GroundTruth(groundTruth: string)

  /** One evaluator invocation, with everything passed to it. */
  datatype EvalCall = EvalCall(metric: Metric, query: string, response: string, extra: Extra)

  function ExtraFor(m: Metric, context: string, groundTruth: string): Extra {
    match m
    case Coherence => NoExtra
    case Fluency => NoExtra
    case Similarity => GroundTruth(groundTruth)
    case _ => Context(if context == "" then NoContextText else context)
  }

  /** The call made for metric `m`, or None when the metric is skipped (`continue`). */
  function CallFor(m: Metric, query: string, response: string, context: string, groundTruth: string): (c: Option<EvalCall>)
    ensures c == None <==> m == Similarity && groundTruth == ""
    ensures c.Some? ==> c.value.metric == m && c.value.query == query && c.value.response == response
    ensures c.Some? && (m == Coherence || m == Fluency) ==> c.value.extra == NoExtra
    ensures c.Some? && m == Similarity ==> c.value.extra == GroundTruth(groundTruth)
    ensures c.Some? && (m == Relevance || m == Groundedness) && context != "" ==> c.value.extra == Context(context)
    ensures c.Some? && (m == Relevance || m == Groundedness) && context == "" ==> c.value.extra == Context(NoContextText)
  {
    if m == Similarity && groundTruth == "" then None
    else Some(EvalCall(m, query, response, ExtraFor(m, context, groundTruth)))
  }

  /** A value found in an evaluator's result dictionary. */
  datatype Raw = Num(x: real) | Null

  /** What an evaluator call did: raised, or returned a result dictionary. */
  datatype EvalOutcome = Raises | Returns(fields: map<string, Raw>)

  /** `result.get("score", result.get(metric, 0))`. */
  function Lookup(m: Metric, fields: map<string, Raw>): (r: Raw)
    ensures "score" in fields ==> r == fields["score"]
    ensures "score" !in fields && m.Name() in fields ==> r == fields[m.Name()]
    ensures r in fields.Values || r == Num(0.0)
    ensures "score" !in fields && m.Name() !in fields ==> r == Num(0.0)
  {
    if "score" in fields then fields["score"]
    else if m.Name() in fields then fields[m.Name()]
    else Num(0.0)
  }

  /** Python truthiness of a raw value. */
  predicate Truthy(v: Raw) {
    v.Num? && v.x != 0.0
  }

  /** The score recorded for an outcome: the value when truthy, else 0.0; 0.0 when the call raised. */
  function ScoreOf(m: Metric, o: EvalOutcome): (s: real)
    ensures o.Raises? ==> s == 0.0
    ensures o.Returns? && Truthy(Lookup(m, o.fields)) ==> s == Lookup(m, o.fields).x
    ensures s == 0.0 <==> o.Raises? || !Truthy(Lookup(m, o.fields))
  {
    match o
    case Raises => 0.0
    case Returns(fields) =>
      var v := Lookup(m, fields);
      if v.Num? && v.x != 0.0 then v.x else 0.0
  }

  /** The scores dictionary built by the loop over the metrics `ms`, in order. */
  function ScoresFor(ms: seq<Metric>, judge: EvalCall -> EvalOutcome,
                     query: string, response: string, context: string, groundTruth: string): map<Metric, real>
  {
    if ms == [] then map[]
    else
      var m := ms[|ms| - 1];
      var prev := ScoresFor(ms[..|ms| - 1], judge, query, response, context, groundTruth);
      var call := CallFor(m, query, response, context, groundTruth);
      if call.Some? then prev[m := ScoreOf(m, judge(call.value))] else prev
  }

  lemma ScoresForStep(ms: seq<Metric>, m: Metric, judge: EvalCall -> EvalOutcome,
                      query: string, response: string, context: string, groundTruth: string)
    ensures var call := CallFor(m, query, response, context, groundTruth);
      var prev := ScoresFor(ms, judge, query, response, context, groundTruth);
      ScoresFor(ms + [m], judge, query, response, context, groundTruth) ==
        if call.Some? then prev[m := ScoreOf(m, judge(call.value))] else prev
  {
    assert (ms + [m])[..|ms|] == ms;
  }

  /** After the loop over `ms`, a metric has a score iff it is in `ms` and has a call, and the score is its outcome's. */
  lemma {:induction false} ScoresForFacts(ms: seq<Metric>, judge: EvalCall -> EvalOutcome,
                                         query: string, response: string, context: string, groundTruth: string, m: Metric)
    ensures var s := ScoresFor(ms, judge, query, response, context, groundTruth);
      var call := CallFor(m, query, response, context, groundTruth);
      (m in s <==> m in ms && call.Some?) &&
      (m in s ==> s[m] == ScoreOf(m, judge(call.value)))
  {
    if ms != [] {
      var init, last := ms[..|ms| - 1], ms[|ms| - 1];
      ScoresForFacts(init, judge, query, response, context, groundTruth, m);
      assert m in ms <==> m in init || m == last by {
        assert ms == init + [last];
      }
    }
  }

  /** `evaluate_response`, with the evaluators given as `judge`. */
  method EvaluateResponse(judge: EvalCall -> EvalOutcome, query: string, response: string,
                          context: string, groundTruth: string)
    returns (scores: map<Metric, real>)
    ensures scores == ScoresFor(Evaluators, judge, query, response, context, groundTruth)
  {
    scores := map[];
    for i := 0 to |Evaluators|
      invariant scores == ScoresFor(Evaluators[..i], judge, query, response, context, groundTruth)
    {
      var m := Evaluators[i];
      assert Evaluators[..i + 1] == Evaluators[..i] + [m];
      ScoresForStep(Evaluators[..i], m, judge, query, response, context, groundTruth);
      var call := CallFor(m, query, response, context, groundTruth);
      match call {
        case None =>
        case Some(c) =>
          var outcome := judge(c);
          scores := scores[m := ScoreOf(m, outcome)];
      }
    }
    assert Evaluators[..|Evaluators|] == Evaluators;
  }

  /**
   * Every metric gets a score except similarity without a ground truth; a failed or falsy
   * evaluation counts as 0.0, and otherwise the returned score is kept.
   */
  lemma ScoresFacts(judge: EvalCall -> EvalOutcome, query: string, response: string,
                    context: string, groundTruth: string, m: Metric)
    ensures var s := ScoresFor(Evaluators, judge, query, response, context, groundTruth);
      (m in s <==> !(m == Similarity && groundTruth == "")) &&
      (m in s ==>
        var o := judge(EvalCall(m, query, response, ExtraFor(m, context, groundTruth)));
        (s[m] == 0.0 <==> o.Raises? || !Truthy(Lookup(m, o.fields))))
  {
    EvaluatorsComplete(m);
    ScoresForFacts(Evaluators, judge, query, response, context, groundTruth, m);
  }
}
