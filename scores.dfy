/** The score normaliser: the four 0..100 category scores all come from the
    PageSpeed categories; the SEO, content and technical probes do not feed
    them. Also the overall score used as prompt context and the list of
    weak areas (categories below 90, lowest first) that drives the
    recommendation engines. */
module Scores {
  import opened PyValues
  import opened PageSpeed
  import StableSort

  datatype Category = Seo | Performance | Accessibility | BestPractices

  /** The category names the source writes into recommendations. */
  function Name(c: Category): string
  {
    match c
    case Seo => "SEO"
    case Performance => "Performance"
    case Accessibility => "Accessibility"
    case BestPractices => "Best Practices"
  }

  /** The position of a category in the source's score list. */
  function Rank(c: Category): int
  {
    match c
    case Seo => 0
    case Performance => 1
    case Accessibility => 2
    case BestPractices => 3
  }

  /** `scores.get(key, {}).get('score', 0)` on the probe's map. */
  function RawScore(p: PerfAnalysis, key: string): Json
  {
    if p.PerfOk? && key in p.scores then p.scores[key].score else JNum(0.0)
  }

  /** One of the four `_calculate_*` normalisers: 0 for the error marker,
      0 for a category the response lacks, otherwise `int(score * 100)`,
      which truncates rather than rounds. */
  function CategoryScore(p: PerfAnalysis, key: string): (r: Result<int>)
    ensures p.PerfError? ==> r == Ok(0)
    ensures p.PerfOk? && key !in p.scores ==> r == Ok(0)
    ensures p.PerfOk? && key in p.scores && p.scores[key].score.JNum? ==>
      var x := p.scores[key].score.n;
      r.Ok? && (0.0 <= x ==> r.value as real <= 100.0 * x < r.value as real + 1.0)
            && (x < 0.0 ==> r.value as real - 1.0 < 100.0 * x <= r.value as real)
    ensures (p.PerfOk? && key in p.scores && p.scores[key].score.JNum?
             && 0.0 <= p.scores[key].score.n <= 1.0) ==> r.Ok? && 0 <= r.value <= 100
    ensures r.Raised? <==> p.PerfOk? && key in p.scores
                           && !p.scores[key].score.JNum? && !p.scores[key].score.JBool?
  {
    if p.PerfError? then Ok(0) else Percent(RawScore(p, key))
  }

  datatype CategoryScores = CategoryScores(seo: int, performance: int, accessibility: int, bestPractices: int)

  /** The four scores as `analyze_website` computes them; note the
      hyphenated key of best practices. Any normaliser that raises makes
      the whole computation raise. */
  function NormaliseScores(p: PerfAnalysis): (r: Result<CategoryScores>)
    ensures p.PerfError? ==> r == Ok(CategoryScores(0, 0, 0, 0))
    ensures r.Ok? <==> CategoryScore(p, "seo").Ok? && CategoryScore(p, "performance").Ok?
                       && CategoryScore(p, "accessibility").Ok? && CategoryScore(p, "best-practices").Ok?
    ensures r.Ok? ==> && r.value.seo == CategoryScore(p, "seo").value
                      && r.value.performance == CategoryScore(p, "performance").value
                      && r.value.accessibility == CategoryScore(p, "accessibility").value
                      && r.value.bestPractices == CategoryScore(p, "best-practices").value
  {
    match (CategoryScore(p, "seo"), CategoryScore(p, "performance"),
           CategoryScore(p, "accessibility"), CategoryScore(p, "best-practices"))
    case (Ok(seo), Ok(perf), Ok(acc), Ok(bp)) => Ok(CategoryScores(seo, perf, acc, bp))
    case _ => Raised
  }

  predicate InRange(s: CategoryScores)
  {
    0 <= s.seo <= 100 && 0 <= s.performance <= 100 && 0 <= s.accessibility <= 100
    && 0 <= s.bestPractices <= 100
  }

  /** When every category fraction the service sent is a number in [0, 1],
      normalising succeeds and every score lies in [0, 100]. */
  lemma NormalisedInRange(p: PerfAnalysis)
    requires p.PerfOk? ==> forall k :: k in p.scores ==>
      p.scores[k].score.JNum? && 0.0 <= p.scores[k].score.n <= 1.0
    ensures NormaliseScores(p).Ok? && InRange(NormaliseScores(p).value)
  {
  }

  function ScoreOf(s: CategoryScores, c: Category): int
  {
    match c
    case Seo => s.seo
    case Performance => s.performance
    case Accessibility => s.accessibility
    case BestPractices => s.bestPractices
  }

  /** The overall score given to the language model: the floor of the
      mean of the four (`//` floors, as Euclidean division does for a
      positive divisor). */
  function OverallScore(s: CategoryScores): (r: int)
    ensures Min4(s) <= r <= Max4(s)
    ensures InRange(s) ==> 0 <= r <= 100
    ensures 4 * r <= s.seo + s.performance + s.accessibility + s.bestPractices < 4 * r + 4
  {
    (s.seo + s.performance + s.accessibility + s.bestPractices) / 4
  }

  function Min4(s: CategoryScores): int
  {
    var a := if s.seo <= s.performance then s.seo else s.performance;
    var b := if s.accessibility <= s.bestPractices then s.accessibility else s.bestPractices;
    if a <= b then a else b
  }

  function Max4(s: CategoryScores): int
  {
    var a := if s.seo >= s.performance then s.seo else s.performance;
    var b := if s.accessibility >= s.bestPractices then s.accessibility else s.bestPractices;
    if a >= b then a else b
  }

  // ---------------------------------------------------------------- weak areas

  function AreaScore(a: (Category, int)): int { a.1 }

  function AreaRank(a: (Category, int)): int { Rank(a.0) }

  /** The score list in source order, keeping only the scores below 90. */
  function BelowNinety(s: CategoryScores): (r: seq<(Category, int)>)
    ensures StableSort.RankIncreasing(r, AreaRank)
    ensures forall a :: a in r <==> a.1 == ScoreOf(s, a.0) && a.1 < 90
  {
    (if s.seo < 90 then [(Seo, s.seo)] else [])
    + (if s.performance < 90 then [(Performance, s.performance)] else [])
    + (if s.accessibility < 90 then [(Accessibility, s.accessibility)] else [])
    + (if s.bestPractices < 90 then [(BestPractices, s.bestPractices)] else [])
  }

  /** The areas needing improvement, as `analyze_website` and the basic
      engine build them: the scores below 90, sorted by score. */
  function WeakAreas(s: CategoryScores): seq<(Category, int)>
  {
    StableSort.Sort(BelowNinety(s), AreaScore)
  }

  /** The weak areas are every category scoring below 90 and no other;
      there are none exactly when every score is at least 90. */
  lemma WeakAreasMembers(s: CategoryScores)
    ensures forall a :: a in WeakAreas(s) <==> a.1 == ScoreOf(s, a.0) && a.1 < 90
    ensures WeakAreas(s) == [] <==> forall c :: ScoreOf(s, c) >= 90
  {
    var below := BelowNinety(s);
    StableSort.SortCorrect(below, AreaScore);
    var sorted := WeakAreas(s);
    assert forall a :: a in sorted <==> a in multiset(sorted);
    assert forall a :: a in below <==> a in multiset(below);
    if sorted == [] {
      forall c ensures ScoreOf(s, c) >= 90 {
        assert (c, ScoreOf(s, c)) !in below;
      }
    } else {
      assert sorted[0] in below;
    }
  }

  /** Lowest score first; ties keep the order SEO, Performance,
      Accessibility, Best Practices because the sort is stable. */
  lemma WeakAreasOrdered(s: CategoryScores)
    ensures var r := WeakAreas(s);
      forall i, j :: 0 <= i < j < |r| ==>
        r[i].1 < r[j].1 || (r[i].1 == r[j].1 && Rank(r[i].0) < Rank(r[j].0))
  {
    StableSort.SortKeyThenRank(BelowNinety(s), AreaScore, AreaRank);
  }
}
