/** The rule-based recommendation engine (`_generate_basic_recommendations`),
    used when no language-model key is configured or the model's answer is
    unusable. It looks at the weak areas (the categories scoring below 90,
    lowest first), takes at most three of them, and lets each produce at
    most one recommendation from a fixed decision table. */
module BasicEngine {
  import opened PyValues
  import opened PageSpeed
  import opened Scores
  import opened SeoProbe
  import opened TechnicalProbe
  import opened Advice
  import StableSort

  // ---------------------------------------------------------------- probe facts read by the table

  /** `performance_analysis.get('core_web_vitals', {}).get('lcp', {}).get('value', 0)`. */
  function LcpValue(p: PerfAnalysis): Json
  {
    if p.PerfOk? && p.vitals.lcp.Some? then p.vitals.lcp.value.value else JNum(0.0)
  }

  /** The LCP display string, or `default` when the response had no LCP audit. */
  function LcpDisplay(p: PerfAnalysis, default: string): Json
  {
    if p.PerfOk? && p.vitals.lcp.Some? then p.vitals.lcp.value.displayValue else JStr(default)
  }

  /** What the decision table reads from the three probes. The reads
      themselves cannot raise; a comparison that would raise in the
      source is kept as a `Result` and only looked at where the source
      evaluates it. */
  datatype Readings = Readings(
    titleLength: nat, descriptionText: string, altCoverage: real,
    lcp: Result<real>, lcpDisplay: Json, perfFraction: Result<real>, perfPercent: int,
    hasSsl: bool)

  function ReadingsOf(seo: SeoAnalysis, p: PerfAnalysis, tech: TechAnalysis): (rd: Readings)
    ensures seo.SeoFailed? ==> rd.titleLength == 0 && rd.descriptionText == "" && rd.altCoverage == 1.0
    ensures tech.TechFailed? ==> !rd.hasSsl
    ensures p.PerfError? ==> rd.lcp == Ok(0.0) && rd.perfFraction == Ok(0.0) && rd.perfPercent == 0
    ensures rd.perfFraction.Ok? ==> Percent(RawScore(p, "performance")) == Ok(rd.perfPercent)
    ensures seo.SeoOk? ==>
      && rd.titleLength == seo.report.title.length
      && rd.descriptionText == seo.report.metaDescription.text
      && rd.altCoverage == seo.report.images.altCoverage
    ensures rd.hasSsl <==> tech.TechOk? && tech.report.hasSsl
    ensures p.PerfOk? && p.vitals.lcp.Some? ==>
      rd.lcp == Numeric(p.vitals.lcp.value.value) && rd.lcpDisplay == p.vitals.lcp.value.displayValue
    ensures p.PerfOk? && p.vitals.lcp.None? ==> rd.lcp == Ok(0.0) && rd.lcpDisplay == JStr("too long")
    ensures rd.perfFraction == Numeric(RawScore(p, "performance"))
  {
    var perfScore := RawScore(p, "performance");
    Readings(
      TitleOf(seo).length, DescriptionOf(seo).text, AltCoverageOr(seo, 1.0),
      Numeric(LcpValue(p)), LcpDisplay(p, "too long"),
      Numeric(perfScore), (match Percent(perfScore) case Ok(k) => k case Raised => 0),
      HasSsl(tech))
  }

  // ---------------------------------------------------------------- the decision table

  function ShortTitle(length: int): Recommendation
  {
    Recommendation(Seo, ImprovePageTitle, [Text(TitleShortLead), Int(length), Text(TitleShortTail)], High)
  }

  function MissingDescription(): Recommendation
  {
    Recommendation(Seo, AddPageDescription, [Text(DescriptionMissing)], High)
  }

  function MissingAltText(): Recommendation
  {
    Recommendation(Seo, AddImageDescriptions, [Text(AltMissing)], Medium)
  }

  function SlowLoading(display: Json): Recommendation
  {
    Recommendation(Performance, SpeedUpLoading, [Text(LoadingLead), Shown(display), Text(LoadingTail)], High)
  }

  function SlowSite(percent: int): Recommendation
  {
    Recommendation(Performance, ImproveSpeed, [Text(SpeedLead), Int(percent), Text(SpeedTail)], High)
  }

  function AccessibilityAdvice(score: int): Recommendation
  {
    Recommendation(Accessibility, ImproveAccessibility,
      [Text(AccessibilityLead), Int(score), Text(AccessibilityTail)], Medium)
  }

  function HttpsAdvice(): Recommendation
  {
    Recommendation(BestPractices, EnableHttps, [Text(HttpsMissing)], High)
  }

  function SecurityAdvice(score: int): Recommendation
  {
    Recommendation(BestPractices, ImproveSecurity, [Text(SecurityLead), Int(score), Text(SecurityTail)], Medium)
  }

  /** The titles each category's pass can produce. */
  function TitlesOf(c: Category): set<Title>
  {
    match c
    case Seo => {ImprovePageTitle, AddPageDescription, AddImageDescriptions}
    case Performance => {SpeedUpLoading, ImproveSpeed}
    case Accessibility => {ImproveAccessibility}
    case BestPractices => {EnableHttps, ImproveSecurity}
  }

  /** No title belongs to two categories. */
  lemma TitlesDisjoint(c: Category, d: Category)
    requires c != d
    ensures TitlesOf(c) !! TitlesOf(d)
  {
  }

  /** The SEO pass: the first that applies of a title under 30 characters,
      a missing description, and alt text on fewer than 80% of the images.
      A failed SEO probe reads as a title of length 0. */
  function SeoPass(rd: Readings): (r: Option<Recommendation>)
    ensures r.Some? ==> r.value.category == Seo && r.value.title in TitlesOf(Seo)
    ensures r.Some? && r.value.title == ImprovePageTitle <==> rd.titleLength < 30
    ensures r.Some? && r.value.title == AddPageDescription <==>
      rd.titleLength >= 30 && rd.descriptionText == ""
    ensures r.Some? && r.value.title == AddImageDescriptions <==>
      rd.titleLength >= 30 && rd.descriptionText != "" && rd.altCoverage < 0.8
    ensures r.None? <==> rd.titleLength >= 30 && rd.descriptionText != "" && rd.altCoverage >= 0.8
  {
    if rd.titleLength < 30 then Some(ShortTitle(rd.titleLength))
    else if rd.descriptionText == "" then Some(MissingDescription())
    else if rd.altCoverage < 0.8 then Some(MissingAltText())
    else None
  }

  /** The Performance pass: a slow Largest Contentful Paint (over 2500 ms)
      comes before a performance fraction under 0.7; either value that is
      not a number makes its comparison raise. */
  function PerformancePass(rd: Readings): (r: Result<Option<Recommendation>>)
    ensures r.Ok? && r.value.Some? ==> r.value.value.category == Performance
                                       && r.value.value.title in TitlesOf(Performance)
    ensures r.Raised? <==> rd.lcp.Raised? || (rd.lcp.value <= 2500.0 && rd.perfFraction.Raised?)
    ensures r.Ok? && rd.lcp.value > 2500.0 ==> r == Ok(Some(SlowLoading(rd.lcpDisplay)))
    ensures r.Ok? && r.value.Some? && r.value.value.title == ImproveSpeed <==>
      r.Ok? && rd.lcp.value <= 2500.0 && rd.perfFraction.value < 0.7
    ensures r.Ok? && r.value.None? <==> r.Ok? && rd.lcp.value <= 2500.0 && rd.perfFraction.value >= 0.7
  {
    match rd.lcp
    case Raised => Raised
    case Ok(lcp) =>
      if lcp > 2500.0 then Ok(Some(SlowLoading(rd.lcpDisplay)))
      else
        match rd.perfFraction
        case Raised => Raised
        case Ok(x) => if x < 0.7 then Ok(Some(SlowSite(rd.perfPercent))) else Ok(None)
  }

  /** The Best Practices pass: HTTPS advice exactly when the site does not
      use it, otherwise general security advice with the score. */
  function BestPracticesPass(rd: Readings, score: int): (r: Recommendation)
    ensures r.category == BestPractices && r.title in TitlesOf(BestPractices)
    ensures r.title == EnableHttps <==> !rd.hasSsl
    ensures r.impact == High <==> !rd.hasSsl
    ensures rd.hasSsl ==> r.title == ImproveSecurity && r.impact == Medium
  {
    if !rd.hasSsl then HttpsAdvice() else SecurityAdvice(score)
  }

  /** One iteration of the engine's loop for a weak area: at most one
      recommendation, tagged with the area's category. Accessibility
      always produces one, with its score. */
  function Pass(area: (Category, int), rd: Readings): (r: Result<Option<Recommendation>>)
    ensures r.Ok? && r.value.Some? ==> r.value.value.category == area.0 && r.value.value.title in TitlesOf(area.0)
    ensures area.0 != Performance ==> r.Ok?
    ensures area.0 == Accessibility ==> r == Ok(Some(AccessibilityAdvice(area.1)))
  {
    match area.0
    case Seo => Ok(SeoPass(rd))
    case Performance => PerformancePass(rd)
    case Accessibility => Ok(Some(AccessibilityAdvice(area.1)))
    case BestPractices => Ok(Some(BestPracticesPass(rd, area.1)))
  }

  // ---------------------------------------------------------------- the loop

  /** The engine's loop over the areas still to visit, given the
      recommendations so far: it stops early once three exist. */
  function BasicFrom(areas: seq<(Category, int)>, rd: Readings, recs: seq<Recommendation>): Result<seq<Recommendation>>
    decreases |areas|
  {
    if areas == [] then Ok(recs)
    else
      match Pass(areas[0], rd)
      case Raised => Raised
      case Ok(o) =>
        var next := recs + OptionList(o);
        if |next| >= 3 then Ok(next) else BasicFrom(areas[1..], rd, next)
  }

  /** The whole engine: normalise the scores (which may raise), then visit
      the three weakest areas. */
  function BasicRecommendations(seo: SeoAnalysis, p: PerfAnalysis, tech: TechAnalysis): (r: Result<seq<Recommendation>>)
    ensures NormaliseScores(p).Raised? ==> r.Raised?
    ensures r.Ok? ==> |r.value| <= 3
  {
    Engine(NormaliseScores(p), ReadingsOf(seo, p, tech))
  }

  /** The engine once the scores are normalised (or have raised) and the
      probe readings are taken. */
  function Engine(scores: Result<CategoryScores>, rd: Readings): (r: Result<seq<Recommendation>>)
    ensures scores.Raised? ==> r.Raised?
    ensures r.Ok? ==> |r.value| <= 3
  {
    match scores
    case Raised => Raised
    case Ok(s) =>
      match BasicFrom(Take(WeakAreas(s), 3), rd, [])
      case Raised => Raised
      case Ok(recs) => Ok(Take(recs, 3))
  }

  /** One turn of the loop, seen from the areas still to visit. */
  lemma BasicFromStep(areas: seq<(Category, int)>, i: nat, rd: Readings, recs: seq<Recommendation>)
    requires i < |areas|
    ensures Pass(areas[i], rd).Raised? ==> BasicFrom(areas[i..], rd, recs) == Raised
    ensures Pass(areas[i], rd).Ok? ==>
      var next := recs + OptionList(Pass(areas[i], rd).value);
      BasicFrom(areas[i..], rd, recs) == if |next| >= 3 then Ok(next) else BasicFrom(areas[i + 1..], rd, next)
  {
    assert areas[i..][0] == areas[i] && areas[i..][1..] == areas[i + 1..];
  }

  /** `_generate_basic_recommendations`. */
  method GenerateBasicRecommendations(seo: SeoAnalysis, p: PerfAnalysis, tech: TechAnalysis)
    returns (r: Result<seq<Recommendation>>)
    ensures r == BasicRecommendations(seo, p, tech)
  {
    var scores := NormaliseScores(p);
    var rd := ReadingsOf(seo, p, tech);
    assert BasicRecommendations(seo, p, tech) == Engine(scores, rd);
    if scores.Raised? {
      return Raised;
    }
    var areas := Take(WeakAreas(scores.value), 3);
    var recs := VisitAreas(areas, rd);
    if recs.Raised? {
      return Raised;
    }
    return Ok(Take(recs.value, 3));
  }

  /** The engine's loop over the areas, stopping once three
      recommendations exist. */
  method VisitAreas(areas: seq<(Category, int)>, rd: Readings) returns (r: Result<seq<Recommendation>>)
    ensures r == BasicFrom(areas, rd, [])
  {
    var recs: seq<Recommendation> := [];
    var i := 0;
    while i < |areas|
      invariant 0 <= i <= |areas|
      invariant |recs| < 3
      invariant BasicFrom(areas, rd, []) == BasicFrom(areas[i..], rd, recs)
    {
      BasicFromStep(areas, i, rd, recs);
      ghost var before := recs;
      var rec := Pass(areas[i], rd);
      if rec.Raised? {
        return Raised;
      }
      if rec.value.Some? {
        recs := recs + [rec.value.value];
      }
      assert recs == before + OptionList(rec.value);
      if |recs| >= 3 {
        return Ok(recs);
      }
      i := i + 1;
    }
    return Ok(recs);
  }

  // ---------------------------------------------------------------- what the engine promises

  /** Every pass in turn, without the early stop: the reference the loop
      is compared against. */
  function Emitted(areas: seq<(Category, int)>, rd: Readings): (r: Result<seq<Recommendation>>)
    ensures r.Ok? ==> |r.value| <= |areas|
    decreases |areas|
  {
    if areas == [] then Ok([])
    else
      match Pass(areas[0], rd)
      case Raised => Raised
      case Ok(o) =>
        match Emitted(areas[1..], rd)
        case Raised => Raised
        case Ok(rest) => Ok(OptionList(o) + rest)
  }

  /** With at most three areas to visit the early stop never cuts a
      recommendation: the loop's result is every pass's output in turn. */
  lemma {:induction false} EarlyStopCutsNothing(areas: seq<(Category, int)>, rd: Readings, recs: seq<Recommendation>)
    requires |recs| + |areas| <= 3
    ensures BasicFrom(areas, rd, recs).Ok? <==> Emitted(areas, rd).Ok?
    ensures BasicFrom(areas, rd, recs).Ok? ==> BasicFrom(areas, rd, recs).value == recs + Emitted(areas, rd).value
    decreases |areas|
  {
    if areas != [] {
      match Pass(areas[0], rd)
      case Raised =>
        assert BasicFrom(areas, rd, recs).Raised? && Emitted(areas, rd).Raised?;
      case Ok(o) =>
        var next := recs + OptionList(o);
        var tail := areas[1..];
        EarlyStopCutsNothing(tail, rd, next);
        assert BasicFrom(areas, rd, recs) == if |next| >= 3 then Ok(next) else BasicFrom(tail, rd, next);
        if |next| >= 3 {
          assert tail == [];
          assert OptionList(o) + [] == OptionList(o);
          assert Emitted(areas, rd) == Ok(OptionList(o));
        } else {
          match Emitted(tail, rd)
          case Raised =>
            assert Emitted(areas, rd).Raised?;
          case Ok(rest) =>
            assert Emitted(areas, rd) == Ok(OptionList(o) + rest);
            assert next + rest == recs + (OptionList(o) + rest);
        }
    }
  }

  /** The order in which the engine ranks a category: by score, ties by
      position in the source's score list. */
  function Priority(s: CategoryScores, c: Category): int
  {
    4 * ScoreOf(s, c) + Rank(c)
  }

  /** Priority order is score order with ties broken by source order. */
  lemma PriorityIsScoreThenRank(s: CategoryScores, c: Category, d: Category)
    ensures Priority(s, c) < Priority(s, d) <==>
      ScoreOf(s, c) < ScoreOf(s, d) || (ScoreOf(s, c) == ScoreOf(s, d) && Rank(c) < Rank(d))
  {
  }

  /** Recommendations listed lowest score first, ties in source order. */
  predicate LowestFirst(s: CategoryScores, r: seq<Recommendation>)
  {
    forall j, k :: 0 <= j < k < |r| ==> Priority(s, r[j].category) < Priority(s, r[k].category)
  }

  /** Each recommendation carries one of its category's titles. */
  predicate TitlesMatch(r: seq<Recommendation>)
  {
    forall j :: 0 <= j < |r| ==> r[j].title in TitlesOf(r[j].category)
  }

  /** In a list ordered by priority no two recommendations share a
      category, hence none share a title. */
  lemma LowestFirstDistinct(s: CategoryScores, r: seq<Recommendation>)
    requires LowestFirst(s, r) && TitlesMatch(r)
    ensures forall j, k :: 0 <= j < k < |r| ==> r[j].category != r[k].category && r[j].title != r[k].title
  {
    forall j, k | 0 <= j < k < |r| ensures r[j].category != r[k].category && r[j].title != r[k].title {
      TitlesDisjoint(r[j].category, r[k].category);
    }
  }

  /** Each recommendation comes from one of the areas visited, tagged
      with its category and carrying one of that category's titles. */
  lemma {:induction false} EmittedFromAreas(areas: seq<(Category, int)>, rd: Readings)
    ensures Emitted(areas, rd).Ok? ==>
      var r := Emitted(areas, rd).value;
      && TitlesMatch(r)
      && (forall j :: 0 <= j < |r| ==> exists i :: 0 <= i < |areas| && r[j].category == areas[i].0)
    decreases |areas|
  {
    if areas != [] && Emitted(areas, rd).Ok? {
      var o := Pass(areas[0], rd).value;
      EmittedFromAreas(areas[1..], rd);
      var rest := Emitted(areas[1..], rd).value;
      var r := OptionList(o) + rest;
      forall j | 0 <= j < |r|
        ensures r[j].title in TitlesOf(r[j].category)
        ensures exists i :: 0 <= i < |areas| && r[j].category == areas[i].0
      {
        if o.Some? && j == 0 {
          assert r[0].category == areas[0].0;
        } else {
          var k := if o.Some? then j - 1 else j;
          assert r[j] == rest[k];
          var i :| 0 <= i < |areas[1..]| && rest[k].category == areas[1..][i].0;
          assert areas[1..][i] == areas[i + 1];
        }
      }
    }
  }

  /** Every recommendation comes from an area, so a priority bound that
      holds for all the areas holds for all the recommendations. */
  lemma EmittedAbove(areas: seq<(Category, int)>, rd: Readings, s: CategoryScores, bound: int)
    requires forall i :: 0 <= i < |areas| ==> bound < Priority(s, areas[i].0)
    ensures Emitted(areas, rd).Ok? ==>
      forall k :: 0 <= k < |Emitted(areas, rd).value| ==> bound < Priority(s, Emitted(areas, rd).value[k].category)
  {
    EmittedFromAreas(areas, rd);
  }

  /** The passes keep the order of the areas. */
  lemma {:induction false} EmittedLowestFirst(areas: seq<(Category, int)>, rd: Readings, s: CategoryScores)
    requires forall i, j :: 0 <= i < j < |areas| ==> Priority(s, areas[i].0) < Priority(s, areas[j].0)
    ensures Emitted(areas, rd).Ok? ==> LowestFirst(s, Emitted(areas, rd).value)
    decreases |areas|
  {
    if areas != [] && Emitted(areas, rd).Ok? {
      var o := Pass(areas[0], rd).value;
      var tail := areas[1..];
      assert forall i :: 0 <= i < |tail| ==> tail[i] == areas[i + 1];
      EmittedLowestFirst(tail, rd, s);
      EmittedAbove(tail, rd, s, Priority(s, areas[0].0));
      var rest := Emitted(tail, rd).value;
      var r := OptionList(o) + rest;
      if o.Some? {
        assert r[0].category == areas[0].0;
        assert forall k :: 0 < k < |r| ==> r[k] == rest[k - 1];
      } else {
        assert r == rest;
      }
    }
  }

  /** The first three weak areas are in strictly increasing priority. */
  lemma WeakAreasByPriority(s: CategoryScores)
    ensures var w := Take(WeakAreas(s), 3);
      forall i, j :: 0 <= i < j < |w| ==> Priority(s, w[i].0) < Priority(s, w[j].0)
  {
    var w := WeakAreas(s);
    var t := Take(w, 3);
    WeakAreasMembers(s);
    WeakAreasOrdered(s);
    forall i, j | 0 <= i < j < |t| ensures Priority(s, t[i].0) < Priority(s, t[j].0) {
      assert t[i] == w[i] && t[j] == w[j];
      assert w[i] in w && w[j] in w;
      PriorityIsScoreThenRank(s, w[i].0, w[j].0);
    }
  }

  /** The loop's result is the passes' output over the three weakest areas. */
  lemma BasicIsEmitted(seo: SeoAnalysis, p: PerfAnalysis, tech: TechAnalysis)
    ensures BasicRecommendations(seo, p, tech).Ok? ==>
      && NormaliseScores(p).Ok?
      && Emitted(Take(WeakAreas(NormaliseScores(p).value), 3), ReadingsOf(seo, p, tech))
         == BasicRecommendations(seo, p, tech)
  {
    if BasicRecommendations(seo, p, tech).Ok? {
      var areas := Take(WeakAreas(NormaliseScores(p).value), 3);
      var rd := ReadingsOf(seo, p, tech);
      EarlyStopCutsNothing(areas, rd, []);
      var r := Emitted(areas, rd).value;
      assert [] + r == r;
    }
  }

  /** Every recommendation over the three weakest areas is for a
      category scoring below 90. */
  lemma EmittedWeak(s: CategoryScores, rd: Readings)
    ensures var areas := Take(WeakAreas(s), 3);
      Emitted(areas, rd).Ok? ==>
        forall j :: 0 <= j < |Emitted(areas, rd).value| ==> ScoreOf(s, Emitted(areas, rd).value[j].category) < 90
  {
    var areas := Take(WeakAreas(s), 3);
    EmittedFromAreas(areas, rd);
    WeakAreasMembers(s);
    if Emitted(areas, rd).Ok? {
      var r := Emitted(areas, rd).value;
      forall j | 0 <= j < |r| ensures ScoreOf(s, r[j].category) < 90 {
        var i :| 0 <= i < |areas| && r[j].category == areas[i].0;
        assert areas[i] in WeakAreas(s);
      }
    }
  }

  /** What the engine promises: at most three recommendations, each for a
      category scoring below 90 and carrying one of that category's titles,
      lowest score first (ties in source order), so no two share a
      category or a title; and it is exactly what every pass over the
      three weakest areas produces in turn. */
  lemma BasicRecommendationsCorrect(seo: SeoAnalysis, p: PerfAnalysis, tech: TechAnalysis)
    ensures BasicRecommendations(seo, p, tech).Ok? ==>
      var s := NormaliseScores(p).value;
      var r := BasicRecommendations(seo, p, tech).value;
      && NormaliseScores(p).Ok?
      && Emitted(Take(WeakAreas(s), 3), ReadingsOf(seo, p, tech)) == Ok(r)
      && |r| <= 3
      && (forall j :: 0 <= j < |r| ==> ScoreOf(s, r[j].category) < 90)
      && TitlesMatch(r)
      && LowestFirst(s, r)
      && (forall j, k :: 0 <= j < k < |r| ==> r[j].category != r[k].category && r[j].title != r[k].title)
  {
    if BasicRecommendations(seo, p, tech).Ok? {
      BasicIsEmitted(seo, p, tech);
      var s := NormaliseScores(p).value;
      var areas := Take(WeakAreas(s), 3);
      var rd := ReadingsOf(seo, p, tech);
      WeakAreasByPriority(s);
      EmittedFromAreas(areas, rd);
      EmittedLowestFirst(areas, rd, s);
      var r := Emitted(areas, rd).value;
      EmittedWeak(s, rd);
      LowestFirstDistinct(s, r);
    }
  }

  /** When every category scores at least 90 the engine has nothing to say. */
  lemma StrongSiteGetsNothing(seo: SeoAnalysis, p: PerfAnalysis, tech: TechAnalysis)
    requires NormaliseScores(p).Ok?
    requires forall c :: ScoreOf(NormaliseScores(p).value, c) >= 90
    ensures BasicRecommendations(seo, p, tech) == Ok([])
  {
    WeakAreasMembers(NormaliseScores(p).value);
  }

  /** With PageSpeed failed, every score is 0. */
  lemma ErrorScores(fault: PerfFault)
    ensures NormaliseScores(PerfError(fault)) == Ok(CategoryScores(0, 0, 0, 0))
  {
  }

  /** With every score 0 the stable sort keeps the source order. */
  lemma ZeroScoresAreas()
    ensures Take(WeakAreas(CategoryScores(0, 0, 0, 0)), 3) == [(Seo, 0), (Performance, 0), (Accessibility, 0)]
  {
    var s := CategoryScores(0, 0, 0, 0);
    var below := [(Seo, 0), (Performance, 0), (Accessibility, 0), (BestPractices, 0)];
    assert BelowNinety(s) == below;
    StableSort.SortEqualKeys(below, AreaScore, 0);
  }

  lemma ErrorPasses(rd: Readings)
    requires rd.lcp == Ok(0.0) && rd.perfFraction == Ok(0.0) && rd.perfPercent == 0
    ensures Emitted([(Seo, 0), (Performance, 0), (Accessibility, 0)], rd)
         == Ok(OptionList(SeoPass(rd)) + [SlowSite(0), AccessibilityAdvice(0)])
  {
    var areas := [(Seo, 0), (Performance, 0), (Accessibility, 0)];
    var mid := [(Performance, 0), (Accessibility, 0)];
    var last := [(Accessibility, 0)];
    assert areas[1..] == mid && mid[1..] == last && last[1..] == [];
    assert Emitted(last, rd) == Ok([AccessibilityAdvice(0)] + []);
    assert [AccessibilityAdvice(0)] + [] == [AccessibilityAdvice(0)];
    assert Pass(mid[0], rd) == Ok(Some(SlowSite(0)));
    assert Emitted(mid, rd) == Ok([SlowSite(0)] + [AccessibilityAdvice(0)]);
    assert [SlowSite(0)] + [AccessibilityAdvice(0)] == [SlowSite(0), AccessibilityAdvice(0)];
    assert Pass(areas[0], rd) == Ok(SeoPass(rd));
  }

  /** With every score 0 the engine visits SEO, Performance and
      Accessibility in that order. */
  lemma ZeroScoresEngine(s: CategoryScores, rd: Readings)
    requires s == CategoryScores(0, 0, 0, 0)
    requires rd.lcp == Ok(0.0) && rd.perfFraction == Ok(0.0) && rd.perfPercent == 0
    ensures Engine(Ok(s), rd) == Ok(OptionList(SeoPass(rd)) + [SlowSite(0), AccessibilityAdvice(0)])
  {
    var areas := [(Seo, 0), (Performance, 0), (Accessibility, 0)];
    ZeroScoresAreas();
    ErrorPasses(rd);
    EarlyStopCutsNothing(areas, rd, []);
    var r := OptionList(SeoPass(rd)) + [SlowSite(0), AccessibilityAdvice(0)];
    assert [] + r == r;
    EngineOver(s, rd, areas, r);
  }

  /** The engine's result once the loop over the three weakest areas is
      known to complete with at most three recommendations. */
  lemma EngineOver(s: CategoryScores, rd: Readings, areas: seq<(Category, int)>, recs: seq<Recommendation>)
    requires Take(WeakAreas(s), 3) == areas && BasicFrom(areas, rd, []) == Ok(recs) && |recs| <= 3
    ensures Engine(Ok(s), rd) == Ok(recs)
  {
  }

  /** A PageSpeed failure does not stop the engine: all four scores read
      as 0, the stable sort keeps the source order, and the first three
      categories are visited: the SEO pass, then slow-site advice with a
      score of 0, then accessibility advice with a score of 0. */
  lemma PageSpeedErrorAdvice(seo: SeoAnalysis, fault: PerfFault, tech: TechAnalysis)
    ensures var rd := ReadingsOf(seo, PerfError(fault), tech);
      BasicRecommendations(seo, PerfError(fault), tech)
        == Ok(OptionList(SeoPass(rd)) + [SlowSite(0), AccessibilityAdvice(0)])
  {
    var rd := ReadingsOf(seo, PerfError(fault), tech);
    ErrorScores(fault);
    ZeroScoresEngine(CategoryScores(0, 0, 0, 0), rd);
    assert BasicRecommendations(seo, PerfError(fault), tech) == Engine(Ok(CategoryScores(0, 0, 0, 0)), rd);
  }

  /** With the SEO probe failed, the SEO pass asks for a longer title
      (the title reads as length 0). */
  lemma FailedSeoAsksForTitle(p: PerfAnalysis, tech: TechAnalysis)
    ensures SeoPass(ReadingsOf(SeoFailed, p, tech)) == Some(ShortTitle(0))
    ensures OptionList(SeoPass(ReadingsOf(SeoFailed, p, tech))) == [ShortTitle(0)]
  {
  }
}
