/** The rule-based engine that works from the PageSpeed response alone
    (`_generate_basic_recommendations_from_pagespeed`): up to three
    threshold checks (performance fraction, Largest Contentful Paint,
    Cumulative Layout Shift) in a fixed order, padded with a monitoring
    reminder until there are three recommendations. */
module PageSpeedAdvice {
  import opened PyValues
  import opened PageSpeed
  import opened Scores
  import opened Advice
  import BasicEngine

  // ---------------------------------------------------------------- what the checks read

  /** `core_web_vitals.get('cls', {}).get('value', 0)`. */
  function ClsValue(p: PerfAnalysis): Json
  {
    if p.PerfOk? && p.vitals.cls.Some? then p.vitals.cls.value.value else JNum(0.0)
  }

  /** The CLS display string, or `default` when the response had no CLS audit. */
  function ClsDisplay(p: PerfAnalysis, default: string): Json
  {
    if p.PerfOk? && p.vitals.cls.Some? then p.vitals.cls.value.displayValue else JStr(default)
  }

  /** The three comparisons' operands, each kept as a `Result` because a
      value that is not a number makes its comparison raise, with the
      percentage and the display strings the messages interpolate. */
  datatype Readings = Readings(
    perf: Result<real>, perfPercent: int,
    lcp: Result<real>, lcpDisplay: Json,
    cls: Result<real>, clsDisplay: Json)

  function ReadingsOf(p: PerfAnalysis): (rd: Readings)
    ensures rd.perf == Numeric(RawScore(p, "performance"))
    ensures rd.perf.Ok? ==> Percent(RawScore(p, "performance")) == Ok(rd.perfPercent)
    ensures rd.lcp == Numeric(BasicEngine.LcpValue(p)) && rd.cls == Numeric(ClsValue(p))
  {
    var perfScore := RawScore(p, "performance");
    Readings(
      Numeric(perfScore), (match Percent(perfScore) case Ok(k) => k case Raised => 0),
      Numeric(BasicEngine.LcpValue(p)), BasicEngine.LcpDisplay(p, "high"),
      Numeric(ClsValue(p)), ClsDisplay(p, "high"))
  }

  // ---------------------------------------------------------------- the messages

  function UnavailableAdvice(): Recommendation
  {
    Recommendation(Performance, PageSpeedUnavailable, [Text(UnavailableShort)], High)
  }

  function PageLoadAdvice(percent: int): Recommendation
  {
    Recommendation(Performance, ImprovePageLoad, [Text(PageLoadLead), Int(percent), Text(PageLoadTail)], High)
  }

  function LcpAdvice(display: Json): Recommendation
  {
    Recommendation(Performance, OptimizeLcp, [Text(LcpLead), Shown(display), Text(LcpTail)], High)
  }

  function ClsAdvice(display: Json): Recommendation
  {
    Recommendation(Performance, ReduceCls, [Text(ClsLead), Shown(display), Text(ClsTail)], Medium)
  }

  function MonitoringAdvice(): Recommendation
  {
    Recommendation(Performance, ContinueMonitoring, [Text(Monitoring)], Low)
  }

  // ---------------------------------------------------------------- the specification

  /** The three checks in order. All three comparisons are evaluated, so
      any operand that is not a number makes the whole engine raise. */
  function Triggered(rd: Readings): Result<seq<Recommendation>>
  {
    match (rd.perf, rd.lcp, rd.cls)
    case (Ok(perf), Ok(lcp), Ok(cls)) =>
      Ok((if perf < 0.7 then [PageLoadAdvice(rd.perfPercent)] else [])
         + (if lcp > 2500.0 then [LcpAdvice(rd.lcpDisplay)] else [])
         + (if cls > 0.1 then [ClsAdvice(rd.clsDisplay)] else []))
    case _ => Raised
  }

  /** The padding loop: monitoring reminders until there are three. */
  function Padded(recs: seq<Recommendation>): seq<Recommendation>
    decreases 3 - |recs|
  {
    if |recs| < 3 then Padded(recs + [MonitoringAdvice()]) else recs
  }

  function FromPageSpeed(p: PerfAnalysis): Result<seq<Recommendation>>
  {
    if p.PerfError? then Ok([UnavailableAdvice()])
    else
      match Triggered(ReadingsOf(p))
      case Raised => Raised
      case Ok(t) => Ok(Take(Padded(t), 3))
  }

  /** `_generate_basic_recommendations_from_pagespeed`. */
  method GenerateBasicRecommendationsFromPageSpeed(p: PerfAnalysis) returns (r: Result<seq<Recommendation>>)
    ensures r == FromPageSpeed(p)
  {
    if p.PerfError? {
      return Ok([UnavailableAdvice()]);
    }
    ghost var rd := ReadingsOf(p);
    var recs: seq<Recommendation> := [];
    var perfScore := RawScore(p, "performance");
    var perf := Numeric(perfScore);
    if perf.Raised? {
      return Raised;
    }
    if perf.value < 0.7 {
      var percent := Percent(perfScore);
      recs := recs + [PageLoadAdvice(percent.value)];
    }
    ghost var checked := recs;
    assert checked == if perf.value < 0.7 then [PageLoadAdvice(rd.perfPercent)] else [];
    var lcp := Numeric(BasicEngine.LcpValue(p));
    if lcp.Raised? {
      return Raised;
    }
    if lcp.value > 2500.0 {
      recs := recs + [LcpAdvice(BasicEngine.LcpDisplay(p, "high"))];
    }
    assert recs == checked + if lcp.value > 2500.0 then [LcpAdvice(rd.lcpDisplay)] else [];
    checked := recs;
    var cls := Numeric(ClsValue(p));
    if cls.Raised? {
      return Raised;
    }
    if cls.value > 0.1 {
      recs := recs + [ClsAdvice(ClsDisplay(p, "high"))];
    }
    assert recs == checked + if cls.value > 0.1 then [ClsAdvice(rd.clsDisplay)] else [];
    assert Triggered(rd) == Ok(recs);
    while |recs| < 3
      invariant Take(Padded(recs), 3) == FromPageSpeed(p).value
      decreases 3 - |recs|
    {
      recs := recs + [MonitoringAdvice()];
    }
    return Ok(Take(recs, 3));
  }

  // ---------------------------------------------------------------- properties

  /** Padding appends monitoring reminders and keeps what was there. */
  lemma {:induction false} PaddedShape(recs: seq<Recommendation>)
    requires |recs| <= 3
    ensures |Padded(recs)| == 3
    ensures Padded(recs)[..|recs|] == recs
    ensures forall i :: |recs| <= i < 3 ==> Padded(recs)[i] == MonitoringAdvice()
    decreases 3 - |recs|
  {
    if |recs| < 3 {
      var next := recs + [MonitoringAdvice()];
      PaddedShape(next);
      assert Padded(next)[..|recs|] == Padded(next)[..|next|][..|recs|];
    }
  }

  /** Whether some recommendation of `r` carries title `t`. */
  predicate Lists(r: seq<Recommendation>, t: Title)
  {
    exists i :: 0 <= i < |r| && r[i].title == t
  }

  /** The position of each check in the engine's fixed order; the
      monitoring reminder comes last. */
  function CheckOrder(t: Title): int
  {
    match t
    case ImprovePageLoad => 0
    case OptimizeLcp => 1
    case ReduceCls => 2
    case _ => 3
  }

  /** The checks that fire, each exactly when its threshold is crossed,
      in their fixed order. */
  lemma TriggeredChecks(rd: Readings)
    requires Triggered(rd).Ok?
    ensures var t, a, b, c := Triggered(rd).value, rd.perf.value < 0.7, rd.lcp.value > 2500.0, rd.cls.value > 0.1;
      && |t| <= 3
      && (forall i :: 0 <= i < |t| ==>
            (t[i] == PageLoadAdvice(rd.perfPercent) && a) || (t[i] == LcpAdvice(rd.lcpDisplay) && b)
            || (t[i] == ClsAdvice(rd.clsDisplay) && c))
      && (a ==> t[0] == PageLoadAdvice(rd.perfPercent))
      && (b ==> t[if a then 1 else 0] == LcpAdvice(rd.lcpDisplay))
      && (c ==> t[|t| - 1] == ClsAdvice(rd.clsDisplay))
      && (forall i, j :: 0 <= i < j < |t| ==> CheckOrder(t[i].title) < CheckOrder(t[j].title))
  {
  }

  /** After padding, the first items are the fired checks and the rest
      are reminders. */
  lemma PaddedTriggered(rd: Readings)
    requires Triggered(rd).Ok?
    ensures var t, r := Triggered(rd).value, Padded(Triggered(rd).value);
      && |t| <= 3 && |r| == 3
      && (forall i :: 0 <= i < |t| ==> r[i] == t[i])
      && (forall i :: |t| <= i < 3 ==> r[i] == MonitoringAdvice())
  {
    var t := Triggered(rd).value;
    TriggeredChecks(rd);
    PaddedShape(t);
    assert Padded(t)[..|t|] == t;
  }

  /** Each check appears in the padded list exactly when its threshold
      is crossed. */
  lemma PaddedLists(rd: Readings)
    requires Triggered(rd).Ok?
    ensures var r := Padded(Triggered(rd).value);
      && (Lists(r, ImprovePageLoad) <==> rd.perf.value < 0.7)
      && (Lists(r, OptimizeLcp) <==> rd.lcp.value > 2500.0)
      && (Lists(r, ReduceCls) <==> rd.cls.value > 0.1)
  {
    var t, r := Triggered(rd).value, Padded(Triggered(rd).value);
    var a, b, c := rd.perf.value < 0.7, rd.lcp.value > 2500.0, rd.cls.value > 0.1;
    TriggeredChecks(rd);
    PaddedTriggered(rd);
    ListsExactly(r, t, ImprovePageLoad, a, 0);
    ListsExactly(r, t, OptimizeLcp, b, if a then 1 else 0);
    ListsExactly(r, t, ReduceCls, c, |t| - 1);
  }

  /** `r` lists `title` exactly when `fired`, given where it sits when it
      fired and that the padding never carries it. */
  lemma ListsExactly(r: seq<Recommendation>, t: seq<Recommendation>, title: Title, fired: bool, at: int)
    requires |t| <= |r| && title != ContinueMonitoring
    requires forall i :: 0 <= i < |t| ==> r[i] == t[i]
    requires forall i :: |t| <= i < |r| ==> r[i] == MonitoringAdvice()
    requires fired ==> 0 <= at < |t| && t[at].title == title
    requires !fired ==> forall i :: 0 <= i < |t| ==> t[i].title != title
    ensures Lists(r, title) <==> fired
  {
    if fired {
      assert r[at].title == title;
    } else {
      forall i | 0 <= i < |r| ensures r[i].title != title {
        if i < |t| {
          assert r[i] == t[i];
        }
      }
    }
  }

  /** The padded list holds only the four messages, the checks in their
      fixed order and none twice, the reminders last. */
  lemma PaddedOrder(rd: Readings)
    requires Triggered(rd).Ok?
    ensures var r := Padded(Triggered(rd).value);
      && |r| == 3
      && (forall i :: 0 <= i < 3 ==>
            r[i] in {PageLoadAdvice(rd.perfPercent), LcpAdvice(rd.lcpDisplay), ClsAdvice(rd.clsDisplay), MonitoringAdvice()})
      && (forall i, j :: 0 <= i < j < 3 ==> CheckOrder(r[i].title) <= CheckOrder(r[j].title))
      && (forall i, j :: 0 <= i < j < 3 && r[i].title == r[j].title ==> r[i] == MonitoringAdvice())
  {
    TriggeredChecks(rd);
    PaddedTriggered(rd);
  }

  /** The engine's whole behaviour: the error marker gives one
      "unavailable" item; otherwise it raises exactly when one of the
      three compared values is not a number, and else returns exactly
      three recommendations, the fired checks first in their fixed order,
      each check present exactly when its threshold is crossed. */
  lemma FromPageSpeedCorrect(p: PerfAnalysis)
    ensures p.PerfError? ==> FromPageSpeed(p) == Ok([UnavailableAdvice()])
    ensures p.PerfOk? ==>
      (FromPageSpeed(p).Raised? <==> Numeric(RawScore(p, "performance")).Raised?
                                     || Numeric(BasicEngine.LcpValue(p)).Raised? || Numeric(ClsValue(p)).Raised?)
    ensures p.PerfOk? && FromPageSpeed(p).Ok? ==>
      var r, rd := FromPageSpeed(p).value, ReadingsOf(p);
      && |r| == 3
      && (forall i :: 0 <= i < 3 ==>
            r[i] in {PageLoadAdvice(rd.perfPercent), LcpAdvice(rd.lcpDisplay), ClsAdvice(rd.clsDisplay), MonitoringAdvice()})
      && (Lists(r, ImprovePageLoad) <==> rd.perf.value < 0.7)
      && (Lists(r, OptimizeLcp) <==> rd.lcp.value > 2500.0)
      && (Lists(r, ReduceCls) <==> rd.cls.value > 0.1)
      && (forall i, j :: 0 <= i < j < 3 ==> CheckOrder(r[i].title) <= CheckOrder(r[j].title))
      && (forall i, j :: 0 <= i < j < 3 && r[i].title == r[j].title ==> r[i] == MonitoringAdvice())
  {
    if p.PerfOk? && Triggered(ReadingsOf(p)).Ok? {
      PaddedLists(ReadingsOf(p));
      PaddedOrder(ReadingsOf(p));
    }
  }

  /** A site that passes all three thresholds gets three monitoring
      reminders and nothing else. */
  lemma HealthySiteGetsReminders(p: PerfAnalysis)
    requires p.PerfOk?
    requires Numeric(RawScore(p, "performance")).Ok? && Numeric(RawScore(p, "performance")).value >= 0.7
    requires Numeric(BasicEngine.LcpValue(p)).Ok? && Numeric(BasicEngine.LcpValue(p)).value <= 2500.0
    requires Numeric(ClsValue(p)).Ok? && Numeric(ClsValue(p)).value <= 0.1
    ensures FromPageSpeed(p) == Ok([MonitoringAdvice(), MonitoringAdvice(), MonitoringAdvice()])
  {
    var rd := ReadingsOf(p);
    var none: seq<Recommendation> := [];
    assert none + none + none == none;
    assert Triggered(rd) == Ok(none);
    PaddedShape(none);
    var m := MonitoringAdvice();
    assert Padded(none) == [m, m, m];
    assert Take(Padded(none), 3) == [m, m, m];
  }
}
