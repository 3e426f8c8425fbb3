/** The two recommendation front ends. Each asks a language model when a
    key is configured and falls back to a rule-based engine when there is
    no key or the model's answer is unusable. The model exchange itself
    (prompt, API call, code-fence extraction, JSON decoding) is an input:
    it either failed somewhere or produced a decoded JSON answer. */
module Advisor {
  import opened PyValues
  import opened PageSpeed
  import opened Scores
  import opened SeoProbe
  import opened TechnicalProbe
  import opened Advice
  import BasicEngine
  import PageSpeedAdvice
  import Dedup

  /** What the model exchange produced: an exception anywhere on the way
      (the API call, an empty answer, `json.loads`) or the decoded answer. */
  datatype ModelReply = ModelFailed | ModelAnswered(answer: Json)

  /** An item of the returned list: a dict the model wrote, or one of the
      rule-based engines' recommendations. */
  datatype Advised = FromModel(item: Json) | FromRules(rec: Recommendation)

  function Rules(recs: seq<Recommendation>): (r: seq<Advised>)
    ensures |r| == |recs| && forall i :: 0 <= i < |r| ==> r[i] == FromRules(recs[i])
  {
    seq(|recs|, i requires 0 <= i < |recs| => FromRules(recs[i]))
  }

  function RulesOf(r: Result<seq<Recommendation>>): Result<seq<Advised>>
  {
    match r case Ok(recs) => Ok(Rules(recs)) case Raised => Raised
  }

  function Models(items: seq<Json>): (r: seq<Advised>)
    ensures |r| == |items| && forall i :: 0 <= i < |r| ==> r[i] == FromModel(items[i])
  {
    seq(|items|, i requires 0 <= i < |items| => FromModel(items[i]))
  }

  /** `[answer] if answer else []` for an answer that is not a list. */
  function Wrapped(answer: Json): (r: seq<Advised>)
    ensures Truthy(answer) <==> r == [FromModel(answer)]
    ensures !Truthy(answer) <==> r == []
  {
    if Truthy(answer) then [FromModel(answer)] else []
  }

  // ---------------------------------------------------------------- _generate_recommendations

  /** The decision `_generate_recommendations` takes once the scores
      have been normalised (or raised) and given what the rule-based
      engine would return. No key or a normaliser that raised sends it to
      the rule-based engine, as does a failed exchange; a list answer is
      de-duplicated by title, and a record that makes that raise sends it
      to the rule-based engine too; any other answer is wrapped. */
  function Dispatch(hasKey: bool, scores: Result<CategoryScores>, rules: Result<seq<Advised>>, reply: ModelReply)
    : Result<seq<Advised>>
  {
    if !hasKey || scores.Raised? then rules
    else
      match reply
      case ModelFailed => rules
      case ModelAnswered(JArr(items)) =>
        (match Dedup.Dedup(items) case Ok(kept) => Ok(Models(kept)) case Raised => rules)
      case ModelAnswered(answer) => Ok(Wrapped(answer))
  }

  /** The decision never adds to what the rule-based engine returns:
      never more than three items if it returns at most three, an
      exception only where it raises, and exactly its answer without a
      key or after a normaliser raised; a list answer that de-duplicates
      without raising is returned de-duplicated (see
      `Dedup.DedupKeepsFirsts` for what that keeps). */
  lemma DispatchBounds(hasKey: bool, scores: Result<CategoryScores>, rules: Result<seq<Advised>>, reply: ModelReply)
    requires rules.Ok? ==> |rules.value| <= 3
    ensures var r := Dispatch(hasKey, scores, rules, reply);
      && (r.Ok? ==> |r.value| <= 3)
      && (r.Raised? ==> rules.Raised?)
      && (!hasKey || scores.Raised? || reply.ModelFailed? ==> r == rules)
      && (hasKey && scores.Ok? && reply.ModelAnswered? && reply.answer.JArr? && Dedup.Dedup(reply.answer.items).Ok? ==>
            r == Ok(Models(Dedup.Dedup(reply.answer.items).value)))
      && (hasKey && scores.Ok? && reply.ModelAnswered? && !reply.answer.JArr? ==> r == Ok(Wrapped(reply.answer)))
  {
    var r := Dispatch(hasKey, scores, rules, reply);
    if !hasKey || scores.Raised? || reply.ModelFailed? {
      assert r == rules;
    } else if reply.answer.JArr? {
      var d := Dedup.Dedup(reply.answer.items);
      if d.Ok? {
        assert r == Ok(Models(d.value));
      } else {
        assert r == rules;
      }
    } else {
      assert r == Ok(Wrapped(reply.answer));
    }
  }

  /** `_generate_recommendations`. The four normalisers run first inside
      the `try`; if one raises, the handler calls the rule-based engine,
      whose exception then escapes. */
  function Recommend(hasKey: bool, seo: SeoAnalysis, p: PerfAnalysis, tech: TechAnalysis, reply: ModelReply)
    : Result<seq<Advised>>
  {
    Dispatch(hasKey, NormaliseScores(p), RulesOf(BasicEngine.BasicRecommendations(seo, p, tech)), reply)
  }

  /** Never more than three recommendations; the front end raises only
      where the rule-based engine does, and always when a normaliser
      raises; without a key it is that engine. */
  lemma RecommendBounds(hasKey: bool, seo: SeoAnalysis, p: PerfAnalysis, tech: TechAnalysis, reply: ModelReply)
    ensures var r := Recommend(hasKey, seo, p, tech, reply);
      var basic := BasicEngine.BasicRecommendations(seo, p, tech);
      && (r.Ok? ==> |r.value| <= 3)
      && (r.Raised? ==> basic.Raised?)
      && (NormaliseScores(p).Raised? ==> r.Raised?)
      && (!hasKey ==> r == RulesOf(basic))
  {
    var basic := BasicEngine.BasicRecommendations(seo, p, tech);
    var rules := RulesOf(basic);
    assert rules.Ok? ==> |rules.value| <= 3 && basic.Ok?;
    assert rules.Raised? ==> basic.Raised?;
    DispatchBounds(hasKey, NormaliseScores(p), rules, reply);
    assert Recommend(hasKey, seo, p, tech, reply) == Dispatch(hasKey, NormaliseScores(p), rules, reply);
  }

  // ---------------------------------------------------------------- _generate_recommendations_from_pagespeed

  /** The item for a PageSpeed error, pointing at the API key. */
  function ConfigurationAdvice(): Recommendation
  {
    Recommendation(Performance, PageSpeedUnavailable, [Text(UnavailableLong)], High)
  }

  /** `_generate_recommendations_from_pagespeed`: the error marker gives
      the configuration item; otherwise a list answer is cut to three, any
      other answer wrapped, and no key or a failed exchange falls back to
      the PageSpeed-only engine. That engine's own exception escapes: the
      handler calls it again. */
  function RecommendFromPageSpeed(hasKey: bool, p: PerfAnalysis, reply: ModelReply): Result<seq<Advised>>
  {
    var rules := RulesOf(PageSpeedAdvice.FromPageSpeed(p));
    if p.PerfError? then Ok([FromRules(ConfigurationAdvice())])
    else if !hasKey then rules
    else
      match reply
      case ModelFailed => rules
      case ModelAnswered(JArr(items)) => Ok(Models(Take(items, 3)))
      case ModelAnswered(answer) => Ok(Wrapped(answer))
  }

  /** What `_generate_recommendations_from_pagespeed` returns in each
      case: the configuration item on the error marker; the PageSpeed-only
      engine without a key or after a failed exchange (so three items
      whenever it does not raise); the first three items of a list answer;
      any other answer wrapped. It raises only where that engine does. */
  lemma RecommendFromPageSpeedBounds(hasKey: bool, p: PerfAnalysis, reply: ModelReply)
    ensures p.PerfError? ==> RecommendFromPageSpeed(hasKey, p, reply) == Ok([FromRules(ConfigurationAdvice())])
    ensures p.PerfOk? && (!hasKey || reply.ModelFailed?) ==>
      RecommendFromPageSpeed(hasKey, p, reply) == RulesOf(PageSpeedAdvice.FromPageSpeed(p))
    ensures p.PerfOk? && hasKey && reply.ModelAnswered? && reply.answer.JArr? ==>
      RecommendFromPageSpeed(hasKey, p, reply) == Ok(Models(Take(reply.answer.items, 3)))
    ensures p.PerfOk? && hasKey && reply.ModelAnswered? && !reply.answer.JArr? ==>
      RecommendFromPageSpeed(hasKey, p, reply) == Ok(Wrapped(reply.answer))
    ensures RecommendFromPageSpeed(hasKey, p, reply).Ok? ==> |RecommendFromPageSpeed(hasKey, p, reply).value| <= 3
    ensures RecommendFromPageSpeed(hasKey, p, reply).Raised? ==> PageSpeedAdvice.FromPageSpeed(p).Raised?
    ensures p.PerfOk? && (!hasKey || reply.ModelFailed?) && RecommendFromPageSpeed(hasKey, p, reply).Ok? ==>
      |RecommendFromPageSpeed(hasKey, p, reply).value| == 3
  {
    PageSpeedAdvice.FromPageSpeedCorrect(p);
  }
}
