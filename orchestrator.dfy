/** `analyze_website`: validate the URL, answer from a fresh cached
    result if there is one, otherwise run the four probes, ask for
    recommendations, normalise the PageSpeed scores and assemble the
    result. The probes catch their own failures and are inputs here, as
    are the clock (whole seconds) and the cache lookup. */
module Orchestrator {
  import opened PyValues
  import opened PageSpeed
  import opened Scores
  import opened SeoProbe
  import opened ContentProbe
  import opened TechnicalProbe
  import Advisor

  /** `_is_valid_url`: both a scheme and a network location. A parser
      that raises makes the URL invalid. */
  predicate IsValidUrl(url: string, parse: UrlParser)
  {
    match parse(url)
    case None => false
    case Some(parts) => parts.scheme != [] && parts.netloc != []
  }

  /** The `raw_data` dict: the four probe results under their names. */
  datatype RawData = RawData(seo: SeoAnalysis, performance: PerfAnalysis,
                             content: ContentAnalysis, technical: TechAnalysis)

  /** `WebsiteAnalysisResult`, with the analysis date in whole seconds. */
  datatype AnalysisResult = AnalysisResult(
    url: string,
    analysisDate: int,
    scores: CategoryScores,
    seoAnalysis: SeoAnalysis,
    performanceAnalysis: PerfAnalysis,
    contentAnalysis: ContentAnalysis,
    technicalAnalysis: TechAnalysis,
    recommendations: seq<Advisor.Advised>,
    rawData: RawData)

  /** A day, the lifetime of a cached analysis. */
  const CacheLifetime: int := 86400

  /** `_is_cache_valid`: a result is fresh for strictly less than a day
      after it was made. */
  predicate IsCacheValid(result: AnalysisResult, now: int)
  {
    now - result.analysisDate < CacheLifetime
  }

  /** How `analyze_website` ends: a result, the `ValueError` for a
      malformed URL, or another exception, which it logs and re-raises. */
  datatype Outcome = Done(result: AnalysisResult) | InvalidUrlFormat | Crashed

  /** `analyze_website`. `cached` is what the cache lookup returned,
      `hasKey` whether a language-model key is configured and `reply`
      what the model exchange produced. */
  function AnalyzeWebsite(url: string, parse: UrlParser, cached: Option<AnalysisResult>, now: int,
                          seo: SeoAnalysis, perf: PerfAnalysis, content: ContentAnalysis,
                          tech: TechAnalysis, hasKey: bool, reply: Advisor.ModelReply): Outcome
  {
    if !IsValidUrl(url, parse) then InvalidUrlFormat
    else if cached.Some? && IsCacheValid(cached.value, now) then Done(cached.value)
    else Assemble(url, now, seo, perf, content, tech,
                  Advisor.Recommend(hasKey, seo, perf, tech, reply), NormaliseScores(perf))
  }

  /** The rest of a run once the probes are back: the recommendations
      are asked for first, then the scores normalised; either raising
      ends the run. */
  function Assemble(url: string, now: int, seo: SeoAnalysis, perf: PerfAnalysis, content: ContentAnalysis,
                    tech: TechAnalysis, recs: Result<seq<Advisor.Advised>>, scores: Result<CategoryScores>): Outcome
  {
    match recs
    case Raised => Crashed
    case Ok(r) =>
      match scores
      case Raised => Crashed
      case Ok(s) => Done(AnalysisResult(url, now, s, seo, perf, content, tech, r, RawData(seo, perf, content, tech)))
  }

  /** When the recommendation step raises wherever the normaliser does,
      the run fails exactly when that step raises, and otherwise keeps
      the probe results, the scores and the recommendations it was given. */
  lemma AssembleCorrect(url: string, now: int, seo: SeoAnalysis, perf: PerfAnalysis, content: ContentAnalysis,
                        tech: TechAnalysis, recs: Result<seq<Advisor.Advised>>, scores: Result<CategoryScores>)
    requires scores.Raised? ==> recs.Raised?
    ensures var o := Assemble(url, now, seo, perf, content, tech, recs, scores);
      && !o.InvalidUrlFormat?
      && (o.Crashed? <==> recs.Raised?)
      && (o.Done? ==>
            && o.result.url == url && o.result.analysisDate == now
            && scores == Ok(o.result.scores) && recs == Ok(o.result.recommendations)
            && o.result.seoAnalysis == seo && o.result.performanceAnalysis == perf
            && o.result.contentAnalysis == content && o.result.technicalAnalysis == tech
            && o.result.rawData == RawData(seo, perf, content, tech))
  {
    var o := Assemble(url, now, seo, perf, content, tech, recs, scores);
    if recs.Ok? {
      assert scores.Ok?;
      assert o == Done(AnalysisResult(url, now, scores.value, seo, perf, content, tech, recs.value,
                                      RawData(seo, perf, content, tech)));
    }
  }

  /** What a run that does not stop at validation or at the cache yields:
      it fails exactly when the recommendation step raises; otherwise it
      is stamped now, carries at most three recommendations, the
      normalised PageSpeed scores and the four probe results both as
      fields and in `raw_data`. */
  lemma AnalyzeWebsiteFresh(url: string, parse: UrlParser, cached: Option<AnalysisResult>, now: int,
                            seo: SeoAnalysis, perf: PerfAnalysis, content: ContentAnalysis,
                            tech: TechAnalysis, hasKey: bool, reply: Advisor.ModelReply)
    requires IsValidUrl(url, parse)
    requires cached.None? || !IsCacheValid(cached.value, now)
    ensures var o := AnalyzeWebsite(url, parse, cached, now, seo, perf, content, tech, hasKey, reply);
      && (o.Crashed? <==> Advisor.Recommend(hasKey, seo, perf, tech, reply).Raised?)
      && !o.InvalidUrlFormat?
      && (o.Done? ==>
            && o.result.url == url && o.result.analysisDate == now
            && NormaliseScores(perf) == Ok(o.result.scores)
            && Advisor.Recommend(hasKey, seo, perf, tech, reply) == Ok(o.result.recommendations)
            && |o.result.recommendations| <= 3
            && o.result.seoAnalysis == seo && o.result.performanceAnalysis == perf
            && o.result.contentAnalysis == content && o.result.technicalAnalysis == tech
            && o.result.rawData == RawData(seo, perf, content, tech))
  {
    var recs := Advisor.Recommend(hasKey, seo, perf, tech, reply);
    Advisor.RecommendBounds(hasKey, seo, perf, tech, reply);
    AssembleCorrect(url, now, seo, perf, content, tech, recs, NormaliseScores(perf));
  }

  /** A malformed URL is refused before anything else, and a fresh cached
      result is returned as it is. */
  lemma AnalyzeWebsiteShortCuts(url: string, parse: UrlParser, cached: Option<AnalysisResult>, now: int,
                                seo: SeoAnalysis, perf: PerfAnalysis, content: ContentAnalysis,
                                tech: TechAnalysis, hasKey: bool, reply: Advisor.ModelReply)
    ensures var o := AnalyzeWebsite(url, parse, cached, now, seo, perf, content, tech, hasKey, reply);
      && (o.InvalidUrlFormat? <==> !IsValidUrl(url, parse))
      && (IsValidUrl(url, parse) && cached.Some? && IsCacheValid(cached.value, now) ==> o == Done(cached.value))
  {
  }

  /** With the PageSpeed error marker all four scores are 0, whatever the
      other probes found. */
  lemma ErrorMarkerScoresZero(url: string, parse: UrlParser, now: int,
                              seo: SeoAnalysis, perf: PerfAnalysis, content: ContentAnalysis,
                              tech: TechAnalysis, hasKey: bool, reply: Advisor.ModelReply)
    requires perf.PerfError?
    ensures var o := AnalyzeWebsite(url, parse, None, now, seo, perf, content, tech, hasKey, reply);
      o.Done? ==> o.result.scores == CategoryScores(0, 0, 0, 0)
  {
    var recs := Advisor.Recommend(hasKey, seo, perf, tech, reply);
    var scores := NormaliseScores(perf);
    assert scores == Ok(CategoryScores(0, 0, 0, 0));
    assert AnalyzeWebsite(url, parse, None, now, seo, perf, content, tech, hasKey, reply)
        == if IsValidUrl(url, parse) then Assemble(url, now, seo, perf, content, tech, recs, scores)
           else InvalidUrlFormat;
  }

  /** A result made now answers every later run with the same URL for
      the next 86400 seconds, and no longer. */
  lemma FreshResultServedForADay(url: string, parse: UrlParser, now: int, later: int,
                                 seo: SeoAnalysis, perf: PerfAnalysis, content: ContentAnalysis,
                                 tech: TechAnalysis, hasKey: bool, reply: Advisor.ModelReply,
                                 seo2: SeoAnalysis, perf2: PerfAnalysis, content2: ContentAnalysis,
                                 tech2: TechAnalysis, hasKey2: bool, reply2: Advisor.ModelReply)
    requires AnalyzeWebsite(url, parse, None, now, seo, perf, content, tech, hasKey, reply).Done?
    ensures var r := AnalyzeWebsite(url, parse, None, now, seo, perf, content, tech, hasKey, reply).result;
      && (later < now + CacheLifetime ==>
            AnalyzeWebsite(url, parse, Some(r), later, seo2, perf2, content2, tech2, hasKey2, reply2) == Done(r))
      && (IsCacheValid(r, later) <==> later < now + CacheLifetime)
  {
    var recs := Advisor.Recommend(hasKey, seo, perf, tech, reply);
    var scores := NormaliseScores(perf);
    var o := Assemble(url, now, seo, perf, content, tech, recs, scores);
    assert AnalyzeWebsite(url, parse, None, now, seo, perf, content, tech, hasKey, reply) == o;
    AssembleStamped(url, now, seo, perf, content, tech, recs, scores);
    var r := o.result;
    if later < now + CacheLifetime {
      assert IsCacheValid(r, later);
    }
  }

  /** A result assembled now carries the time `now`. */
  lemma AssembleStamped(url: string, now: int, seo: SeoAnalysis, perf: PerfAnalysis, content: ContentAnalysis,
                        tech: TechAnalysis, recs: Result<seq<Advisor.Advised>>, scores: Result<CategoryScores>)
    ensures var o := Assemble(url, now, seo, perf, content, tech, recs, scores);
      o.Done? ==> o.result.analysisDate == now && o.result.url == url
  {
  }
}
