/** The three heuristic scorers that read the analyzer's own probes
    (`_calculate_seo_score`, `_calculate_accessibility_score`,
    `_calculate_best_practices_score`). Nothing in the analyzer calls
    them any more, but they are part of it. Each adds up points for what
    the probe found and caps the sum at 100. */
module Heuristics {
  import opened PyValues
  import opened SeoProbe
  import opened TechnicalProbe

  /** `sum(1 for v in values if v)`. */
  function CountTrue(values: seq<bool>): (k: nat)
    ensures k <= |values|
    ensures k == |values| <==> forall i :: 0 <= i < |values| ==> values[i]
  {
    if values == [] then 0
    else
      var rest := CountTrue(values[1..]);
      assert forall i :: 1 <= i < |values| ==> values[i] == values[1..][i - 1];
      (if values[0] then 1 else 0) + rest
  }

  /** `int((k / n) * weight) if n else 0`: the share of `weight` earned by
      `k` hits out of `n`, truncated. */
  function Share(k: nat, n: nat, weight: nat): (r: int)
    requires k <= n && weight > 0
    ensures n == 0 ==> r == 0
    ensures 0 <= r <= weight
    ensures n > 0 ==> r as real <= (k as real / n as real) * weight as real < r as real + 1.0
    ensures n > 0 ==> (r == weight <==> k == n)
  {
    if n == 0 then 0
    else
      ShareOfWeight(k, n, weight);
      Trunc((k as real / n as real) * weight as real)
  }

  /** The truncated share lies in [0, weight] and is the whole weight
      exactly when every one of the `n` counted. */
  lemma ShareOfWeight(k: nat, n: nat, weight: nat)
    requires 0 < n && k <= n && weight > 0
    ensures var r := Trunc((k as real / n as real) * weight as real);
      0 <= r <= weight && (r == weight <==> k == n)
  {
    var q := k as real / n as real;
    var w := weight as real;
    assert 0.0 <= q <= 1.0 && (q == 1.0 <==> k == n) by {
      FractionFacts(k, n);
    }
    var x := q * w;
    assert 0.0 <= x <= w && (q < 1.0 ==> x < w) by {
      ScaledFraction(q, w);
    }
    if k == n {
      assert q == 1.0;
      assert x == w;
    }
    var r := Trunc(x);
    assert r as real <= x < r as real + 1.0;
  }

  /** `min(score, 100)`. */
  function Cap(score: int): (r: int)
    ensures r <= 100 && r <= score
    ensures r == score || r == 100
  {
    if score < 100 then score else 100
  }

  // ---------------------------------------------------------------- SEO

  /** The values of the `meta_tags` dict; empty for a failed probe. */
  function MetaTagValues(seo: SeoAnalysis): (r: seq<bool>)
    ensures seo.SeoFailed? <==> r == []
  {
    match seo
    case SeoFailed => []
    case SeoOk(rep) =>
      var m := rep.metaTags;
      [m.viewport, m.robots, m.canonical, m.ogTitle, m.ogDescription, m.twitterCard]
  }

  /** 20 points for a text of optimal length, 10 for any other non-empty one. */
  function TextPoints(f: TextField): int
  {
    if f.optimal then 20 else if f.length > 0 then 10 else 0
  }

  /** The uncapped sum of `_calculate_seo_score`. */
  function SeoPoints(seo: SeoAnalysis): int
  {
    var tags := MetaTagValues(seo);
    TextPoints(TitleOf(seo)) + TextPoints(DescriptionOf(seo)) + Trunc(AltCoverageOr(seo, 0.0) * 20.0)
    + (if seo.SeoOk? && seo.report.schemaMarkup then 20 else 0)
    + Share(CountTrue(tags), |tags|, 20)
  }

  /** `_calculate_seo_score`. */
  method CalculateSeoScore(seo: SeoAnalysis) returns (score: int)
    ensures score == Cap(SeoPoints(seo))
  {
    score := 0;
    var title := TitleOf(seo);
    if title.optimal {
      score := score + 20;
    } else if title.length > 0 {
      score := score + 10;
    }
    var description := DescriptionOf(seo);
    if description.optimal {
      score := score + 20;
    } else if description.length > 0 {
      score := score + 10;
    }
    score := score + Trunc(AltCoverageOr(seo, 0.0) * 20.0);
    if seo.SeoOk? && seo.report.schemaMarkup {
      score := score + 20;
    }
    ghost var partial := score;
    var tags := MetaTagValues(seo);
    var present := CountTags(tags);
    score := score + Share(present, |tags|, 20);
    assert score == SeoPoints(seo) by {
      assert partial == TextPoints(title) + TextPoints(description) + Trunc(AltCoverageOr(seo, 0.0) * 20.0)
                        + (if seo.SeoOk? && seo.report.schemaMarkup then 20 else 0);
    }
    if score > 100 {
      score := 100;
    }
  }

  /** `sum(1 for tag in meta_tags.values() if tag)`, as a loop. */
  method CountTags(tags: seq<bool>) returns (present: nat)
    ensures present == CountTrue(tags)
  {
    present := 0;
    var i := 0;
    while i < |tags|
      invariant 0 <= i <= |tags|
      invariant present == CountTrue(tags[..i])
    {
      CountTrueSnoc(tags[..i], tags[i]);
      assert tags[..i + 1] == tags[..i] + [tags[i]];
      if tags[i] {
        present := present + 1;
      }
      i := i + 1;
    }
    assert tags[..i] == tags;
  }

  lemma {:induction false} CountTrueSnoc(values: seq<bool>, v: bool)
    ensures CountTrue(values + [v]) == CountTrue(values) + (if v then 1 else 0)
  {
    if values == [] {
      assert values + [v] == [v];
    } else {
      assert (values + [v])[1..] == values[1..] + [v];
      CountTrueSnoc(values[1..], v);
    }
  }

  /** The probe's alt coverage is a fraction, so the SEO points stay
      within 0..100 and the cap never binds; a failed probe scores 0; and
      the score is 100 exactly when every check is met. */
  lemma SeoScoreRange(seo: SeoAnalysis)
    requires 0.0 <= AltCoverageOr(seo, 0.0) <= 1.0
    ensures 0 <= SeoPoints(seo) <= 100 && Cap(SeoPoints(seo)) == SeoPoints(seo)
    ensures seo.SeoFailed? ==> SeoPoints(seo) == 0
    ensures SeoPoints(seo) == 100 <==>
      && seo.SeoOk? && seo.report.title.optimal && seo.report.metaDescription.optimal
      && seo.report.images.altCoverage == 1.0 && seo.report.schemaMarkup
      && forall i :: 0 <= i < |MetaTagValues(seo)| ==> MetaTagValues(seo)[i]
  {
    var c := AltCoverageOr(seo, 0.0);
    var t := Trunc(c * 20.0);
    assert 0 <= t <= 20;
    assert t == 20 <==> c == 1.0 by {
      if t == 20 {
        assert 20.0 <= c * 20.0;
      }
    }
  }

  /** What the probe itself produces always has a fractional coverage. */
  lemma ProbeCoverageIsFraction(url: string, page: Option<SeoPage>, parse: UrlParser)
    ensures 0.0 <= AltCoverageOr(AnalyzeSeo(url, page, parse), 0.0) <= 1.0
  {
  }

  // ---------------------------------------------------------------- accessibility and best practices

  /** The values of the `security_headers` dict; empty for a failed probe. */
  function HeaderFlags(tech: TechAnalysis): (r: seq<bool>)
    ensures tech.TechFailed? <==> r == []
  {
    match tech
    case TechFailed => []
    case TechOk(rep) =>
      var h := rep.securityHeaders;
      [h.contentSecurityPolicy, h.xFrameOptions, h.xContentTypeOptions, h.strictTransportSecurity]
  }

  function AccessibilityPoints(tech: TechAnalysis): int
  {
    var flags := HeaderFlags(tech);
    (if HasSsl(tech) then 20 else 0) + Share(CountTrue(flags), |flags|, 30)
  }

  /** `_calculate_accessibility_score`. */
  method CalculateAccessibilityScore(tech: TechAnalysis) returns (score: int)
    ensures score == Cap(AccessibilityPoints(tech))
  {
    score := 0;
    if HasSsl(tech) {
      score := score + 20;
    }
    var flags := HeaderFlags(tech);
    score := score + Share(CountTrue(flags), |flags|, 30);
    if score > 100 {
      score := 100;
    }
  }

  /** The accessibility heuristic never exceeds 50: 20 for HTTPS and 30
      for the four security headers, earned only with all four. */
  lemma AccessibilityScoreRange(tech: TechAnalysis)
    ensures 0 <= AccessibilityPoints(tech) <= 50 && Cap(AccessibilityPoints(tech)) == AccessibilityPoints(tech)
    ensures tech.TechFailed? ==> AccessibilityPoints(tech) == 0
    ensures AccessibilityPoints(tech) == 50 <==>
      HasSsl(tech) && forall i :: 0 <= i < |HeaderFlags(tech)| ==> HeaderFlags(tech)[i]
  {
  }

  function BestPracticesPoints(tech: TechAnalysis): int
  {
    var flags := HeaderFlags(tech);
    (if HasSsl(tech) then 30 else 0) + Share(CountTrue(flags), |flags|, 40)
    + (if tech.TechOk? && tech.report.sitemap.found then 15 else 0)
    + (if tech.TechOk? && tech.report.robots.found then 15 else 0)
  }

  /** `_calculate_best_practices_score`. */
  method CalculateBestPracticesScore(tech: TechAnalysis) returns (score: int)
    ensures score == Cap(BestPracticesPoints(tech))
  {
    score := 0;
    if HasSsl(tech) {
      score := score + 30;
    }
    var flags := HeaderFlags(tech);
    score := score + Share(CountTrue(flags), |flags|, 40);
    if tech.TechOk? && tech.report.sitemap.found {
      score := score + 15;
    }
    if tech.TechOk? && tech.report.robots.found {
      score := score + 15;
    }
    if score > 100 {
      score := 100;
    }
  }

  /** The best-practices heuristic stays within 0..100, a failed probe
      scores 0, and 100 means HTTPS, all four security headers, a
      sitemap and a robots.txt. */
  lemma BestPracticesScoreRange(tech: TechAnalysis)
    ensures 0 <= BestPracticesPoints(tech) <= 100 && Cap(BestPracticesPoints(tech)) == BestPracticesPoints(tech)
    ensures tech.TechFailed? ==> BestPracticesPoints(tech) == 0
    ensures BestPracticesPoints(tech) == 100 <==>
      && HasSsl(tech) && (forall i :: 0 <= i < |HeaderFlags(tech)| ==> HeaderFlags(tech)[i])
      && tech.report.sitemap.found && tech.report.robots.found
  {
  }
}
