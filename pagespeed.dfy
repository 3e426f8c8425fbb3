/** The performance probe: the call to the PageSpeed Insights service and
    the parsing of its response into per-category scores, Core Web Vitals,
    and the audits that fall below 0.9, split into opportunities and
    diagnostics. The HTTP exchange itself is an input. */
module PageSpeed {
  import opened PyValues

  /** What `scores[category]` holds: the three fields copied from the
      response, each with the default `.get` supplies. */
  datatype CategoryEntry = CategoryEntry(score: Json, title: Json, description: Json)

  /** One Core Web Vital as the parser copies it from its audit. */
  datatype Vital = Vital(value: Json, score: Json, displayValue: Json)

  /** `core_web_vitals`: a vital is absent when its audit is. */
  datatype Vitals = Vitals(fcp: Option<Vital>, lcp: Option<Vital>, cls: Option<Vital>, inp: Option<Vital>)

  datatype Opportunity = Opportunity(id: string, title: Json, description: Json, score: Json, savings: Json)

  datatype Diagnostic = Diagnostic(id: string, title: Json, description: Json, score: Json)

  /** Why the probe produced an `{'error': ...}` map instead of results. */
  datatype PerfFault =
    | ApiKeyMissing
    | HttpStatus(status: int, body: string)
    | RequestFailed
    | ParseFailed

  /** The map the performance probe returns: either the error marker or
      the parsed response (with the response itself kept as `raw_data`). */
  datatype PerfAnalysis =
    | PerfError(fault: PerfFault)
    | PerfOk(scores: map<string, CategoryEntry>, vitals: Vitals,
             opportunities: seq<Opportunity>, diagnostics: seq<Diagnostic>, raw: Json)

  /** The service's answer as the probe receives it: a transport fault, or
      a status with the decoded body (None when it is not valid JSON) and
      the body's text. */
  datatype PageSpeedReply =
    | TransportError
    | HttpReply(status: int, body: Option<Json>, text: string)

  // ---------------------------------------------------------------- categories

  function EntryOf(details: seq<(string, Json)>): CategoryEntry
  {
    CategoryEntry(Field(details, "score", JNum(0.0)), Field(details, "title", JStr("")),
                  Field(details, "description", JStr("")))
  }

  /** The member names of a decoded object. */
  function Names(members: seq<(string, Json)>): set<string>
  {
    set i | 0 <= i < |members| :: members[i].0
  }

  /** The `scores` loop over `categories.items()`, continuing from `acc`;
      a category whose details are not a dict makes `.get` raise. */
  function ScoresFrom(rest: seq<(string, Json)>, acc: map<string, CategoryEntry>): Result<map<string, CategoryEntry>>
    decreases |rest|
  {
    if rest == [] then Ok(acc)
    else if !rest[0].1.JObj? then Raised
    else ScoresFrom(rest[1..], acc[rest[0].0 := EntryOf(rest[0].1.members)])
  }

  /** The `scores` loop raises exactly when some category's details is
      not a dict. */
  lemma {:induction false} ScoresFromTotal(rest: seq<(string, Json)>, acc: map<string, CategoryEntry>)
    ensures ScoresFrom(rest, acc).Ok? <==> forall i :: 0 <= i < |rest| ==> rest[i].1.JObj?
    decreases |rest|
  {
    if rest != [] && rest[0].1.JObj? {
      ScoresFromTotal(rest[1..], acc[rest[0].0 := EntryOf(rest[0].1.members)]);
      assert forall i :: 1 <= i < |rest| ==> rest[i] == rest[1..][i - 1];
    }
  }

  /** A completed `scores` loop has an entry for every category it saw. */
  lemma {:induction false} ScoresFromKeys(rest: seq<(string, Json)>, acc: map<string, CategoryEntry>)
    ensures ScoresFrom(rest, acc).Ok? ==> ScoresFrom(rest, acc).value.Keys == acc.Keys + Names(rest)
    decreases |rest|
  {
    if rest != [] && rest[0].1.JObj? {
      ScoresFromKeys(rest[1..], acc[rest[0].0 := EntryOf(rest[0].1.members)]);
      assert Names(rest) == {rest[0].0} + Names(rest[1..]) by {
        forall k | k in Names(rest) ensures k in {rest[0].0} + Names(rest[1..]) {
          var i :| 0 <= i < |rest| && rest[i].0 == k;
          if i > 0 { assert rest[1..][i - 1].0 == k; }
        }
        forall k | k in Names(rest[1..]) ensures k in Names(rest) {
          var i :| 0 <= i < |rest[1..]| && rest[1..][i].0 == k;
          assert rest[i + 1].0 == k;
        }
      }
    }
  }

  /** No category after position `i` has the same name. */
  predicate LastWithName(rest: seq<(string, Json)>, i: nat)
    requires i < |rest|
  {
    forall j :: i < j < |rest| ==> rest[j].0 != rest[i].0
  }

  lemma LastWithNameTail(rest: seq<(string, Json)>, i: nat)
    requires 0 < i < |rest| && LastWithName(rest, i)
    ensures LastWithName(rest[1..], i - 1)
  {
    forall j | i - 1 < j < |rest[1..]| ensures rest[1..][j].0 != rest[1..][i - 1].0 {
      assert rest[1..][j] == rest[j + 1];
    }
  }

  lemma LastWithNameHead(rest: seq<(string, Json)>)
    requires 0 < |rest| && LastWithName(rest, 0)
    ensures forall j :: 0 <= j < |rest[1..]| ==> rest[1..][j].0 != rest[0].0
  {
    forall j | 0 <= j < |rest[1..]| ensures rest[1..][j].0 != rest[0].0 {
      assert rest[1..][j] == rest[j + 1];
    }
  }

  /** In a completed `scores` loop every category's entry is built from its
      own details (the decoder never repeats a key; for a repeated one the
      last wins). */
  lemma {:induction false} ScoresFromEntries(rest: seq<(string, Json)>, acc: map<string, CategoryEntry>)
    ensures ScoresFrom(rest, acc).Ok? ==>
      var m := ScoresFrom(rest, acc).value;
      forall i :: 0 <= i < |rest| && LastWithName(rest, i) ==>
        rest[i].1.JObj? && rest[i].0 in m && m[rest[i].0] == EntryOf(rest[i].1.members)
    decreases |rest|
  {
    if rest != [] && rest[0].1.JObj? {
      var acc' := acc[rest[0].0 := EntryOf(rest[0].1.members)];
      ScoresFromEntries(rest[1..], acc');
      if ScoresFrom(rest, acc).Ok? {
        var m := ScoresFrom(rest, acc).value;
        assert m == ScoresFrom(rest[1..], acc').value;
        forall i | 0 <= i < |rest| && LastWithName(rest, i)
          ensures rest[i].1.JObj? && rest[i].0 in m && m[rest[i].0] == EntryOf(rest[i].1.members)
        {
          if i == 0 {
            LastWithNameHead(rest);
            ScoresFromKeepsAbsent(rest[1..], acc', rest[0].0);
          } else {
            LastWithNameTail(rest, i);
            assert rest[1..][i - 1] == rest[i];
          }
        }
      }
    }
  }

  /** Every category of the response gets an entry built from its own
      details, and the loop raises exactly when some details is not a dict. */
  lemma ScoresFromCorrect(rest: seq<(string, Json)>, acc: map<string, CategoryEntry>)
    ensures ScoresFrom(rest, acc).Ok? <==> forall i :: 0 <= i < |rest| ==> rest[i].1.JObj?
    ensures ScoresFrom(rest, acc).Ok? ==>
      var m := ScoresFrom(rest, acc).value;
      && m.Keys == acc.Keys + Names(rest)
      && forall i :: 0 <= i < |rest| && LastWithName(rest, i) ==> m[rest[i].0] == EntryOf(rest[i].1.members)
  {
    ScoresFromTotal(rest, acc);
    ScoresFromKeys(rest, acc);
    ScoresFromEntries(rest, acc);
  }

  /** A key that the remaining categories never name keeps its value. */
  lemma {:induction false} ScoresFromKeepsAbsent(rest: seq<(string, Json)>, acc: map<string, CategoryEntry>, k: string)
    requires k in acc
    requires forall j :: 0 <= j < |rest| ==> rest[j].0 != k
    requires ScoresFrom(rest, acc).Ok?
    ensures k in ScoresFrom(rest, acc).value && ScoresFrom(rest, acc).value[k] == acc[k]
    decreases |rest|
  {
    if rest != [] {
      assert rest[0].0 != k;
      ScoresFromKeepsAbsent(rest[1..], acc[rest[0].0 := EntryOf(rest[0].1.members)], k);
    }
  }

  // ---------------------------------------------------------------- vitals

  function VitalFrom(audit: Json): Result<Vital>
  {
    match audit
    case JObj(m) => Ok(Vital(Field(m, "numericValue", JNum(0.0)), Field(m, "score", JNum(0.0)),
                             Field(m, "displayValue", JStr(""))))
    case _ => Raised
  }

  function VitalAt(audits: seq<(string, Json)>, key: string): Result<Option<Vital>>
  {
    match Lookup(audits, key)
    case None => Ok(None)
    case Some(a) => (match VitalFrom(a) case Ok(v) => Ok(Some(v)) case Raised => Raised)
  }

  /** The audit named `key` exists but is not a dict, so reading its
      fields raises. */
  predicate BadAudit(audits: seq<(string, Json)>, key: string)
  {
    Lookup(audits, key).Some? && !Lookup(audits, key).value.JObj?
  }

  /** `v` is what the vitals block records for the audit named `key`:
      nothing when there is no such audit, its three fields otherwise. */
  predicate CopiedVital(audits: seq<(string, Json)>, key: string, v: Option<Vital>)
  {
    && (v.None? <==> Lookup(audits, key).None?)
    && (v.Some? ==> VitalFrom(Lookup(audits, key).value) == Ok(v.value))
  }

  /** The audit INP is read from. */
  function InpKey(audits: seq<(string, Json)>): string
  {
    if Lookup(audits, "interaction-to-next-paint").Some? then "interaction-to-next-paint"
    else "experimental-interaction-to-next-paint"
  }

  /** The Core Web Vitals block: INP comes from `interaction-to-next-paint`
      when that audit exists and from its experimental variant otherwise. */
  function VitalsOf(audits: seq<(string, Json)>): (r: Result<Vitals>)
    ensures r.Raised? <==>
      || BadAudit(audits, "first-contentful-paint") || BadAudit(audits, "largest-contentful-paint")
      || BadAudit(audits, "cumulative-layout-shift") || BadAudit(audits, InpKey(audits))
    ensures r.Ok? ==>
      && CopiedVital(audits, "first-contentful-paint", r.value.fcp)
      && CopiedVital(audits, "largest-contentful-paint", r.value.lcp)
      && CopiedVital(audits, "cumulative-layout-shift", r.value.cls)
      && CopiedVital(audits, InpKey(audits), r.value.inp)
    ensures r.Ok? && Lookup(audits, "interaction-to-next-paint").Some? ==>
      VitalFrom(Lookup(audits, "interaction-to-next-paint").value).Ok?
      && r.value.inp == Some(VitalFrom(Lookup(audits, "interaction-to-next-paint").value).value)
    ensures r.Ok? && Lookup(audits, "interaction-to-next-paint").None?
                  && Lookup(audits, "experimental-interaction-to-next-paint").Some? ==>
      VitalFrom(Lookup(audits, "experimental-interaction-to-next-paint").value).Ok?
      && r.value.inp == Some(VitalFrom(Lookup(audits, "experimental-interaction-to-next-paint").value).value)
    ensures r.Ok? ==> (r.value.inp.None? <==>
      Lookup(audits, "interaction-to-next-paint").None?
      && Lookup(audits, "experimental-interaction-to-next-paint").None?)
    ensures r.Ok? ==> (r.value.lcp.Some? <==> Lookup(audits, "largest-contentful-paint").Some?)
  {
    match (VitalAt(audits, "first-contentful-paint"), VitalAt(audits, "largest-contentful-paint"),
           VitalAt(audits, "cumulative-layout-shift"), VitalAt(audits, InpKey(audits)))
    case (Ok(fcp), Ok(lcp), Ok(cls), Ok(inp)) => Ok(Vitals(fcp, lcp, cls, inp))
    case _ => Raised
  }

  // ---------------------------------------------------------------- audits

  /** An audit with a non-null score below 0.9. */
  predicate BelowThreshold(audit: Json)
  {
    && audit.JObj?
    && var s := Lookup(audit.members, "score");
    && s.Some? && !s.value.JNull?
    && Numeric(s.value).Ok? && Numeric(s.value).value < 0.9
  }

  /** An audit whose `details` is a dict with type "opportunity". */
  predicate OpportunityType(audit: Json)
    requires audit.JObj?
  {
    var d := Field(audit.members, "details", JObj([]));
    d.JObj? && Lookup(d.members, "type") == Some(JStr("opportunity"))
  }

  datatype AuditClass = Skipped | AsOpportunity(o: Opportunity) | AsDiagnostic(d: Diagnostic)

  /** One pass of the audit loop: skip, or an opportunity, or a diagnostic;
      `.get` on a non-dict and `<` on a non-number raise. */
  function ClassifyAudit(id: string, audit: Json): (r: Result<AuditClass>)
    ensures r.Ok? && r.value.AsOpportunity? <==> BelowThreshold(audit) && OpportunityType(audit)
    ensures r.Ok? && r.value.AsDiagnostic? <==>
      BelowThreshold(audit) && Field(audit.members, "details", JObj([])).JObj? && !OpportunityType(audit)
    ensures r.Ok? && r.value.AsOpportunity? ==> r.value.o.id == id && !r.value.o.score.JNull?
    ensures r.Ok? && r.value.AsDiagnostic? ==> r.value.d.id == id && !r.value.d.score.JNull?
    ensures r.Raised? <==> (!audit.JObj?
      || (BelowThreshold(audit) && !Field(audit.members, "details", JObj([])).JObj?)
      || (var s := Lookup(audit.members, "score"); s.Some? && !s.value.JNull? && Numeric(s.value).Raised?))
  {
    if !audit.JObj? then Raised
    else
      var m := audit.members;
      var score := Lookup(m, "score");
      if score.None? || score.value.JNull? then Ok(Skipped)
      else match Numeric(score.value)
        case Raised => Raised
        case Ok(n) =>
          if !(n < 0.9) then Ok(Skipped)
          else
            var details := Field(m, "details", JObj([]));
            if !details.JObj? then Raised
            else
              var title := Field(m, "title", JStr(""));
              var description := Field(m, "description", JStr(""));
              if Lookup(details.members, "type") == Some(JStr("opportunity")) then
                Ok(AsOpportunity(Opportunity(id, title, description, score.value,
                                             Field(details.members, "overallSavingsMs", JNum(0.0)))))
              else Ok(AsDiagnostic(Diagnostic(id, title, description, score.value)))
  }

  /** The audit loop, continuing from the lists built so far. */
  function SplitFrom(rest: seq<(string, Json)>, opps: seq<Opportunity>, diags: seq<Diagnostic>)
    : Result<(seq<Opportunity>, seq<Diagnostic>)>
    decreases |rest|
  {
    if rest == [] then Ok((opps, diags))
    else match ClassifyAudit(rest[0].0, rest[0].1)
      case Raised => Raised
      case Ok(Skipped) => SplitFrom(rest[1..], opps, diags)
      case Ok(AsOpportunity(o)) => SplitFrom(rest[1..], opps + [o], diags)
      case Ok(AsDiagnostic(d)) => SplitFrom(rest[1..], opps, diags + [d])
  }

  /** Reference definitions: the ids of the audits each list should hold,
      in document order. */
  function OpportunityIds(audits: seq<(string, Json)>): seq<string>
  {
    if audits == [] then []
    else (if BelowThreshold(audits[0].1) && OpportunityType(audits[0].1) then [audits[0].0] else [])
         + OpportunityIds(audits[1..])
  }

  function DiagnosticIds(audits: seq<(string, Json)>): seq<string>
  {
    if audits == [] then []
    else (if BelowThreshold(audits[0].1) && !OpportunityType(audits[0].1) then [audits[0].0] else [])
         + DiagnosticIds(audits[1..])
  }

  function BelowThresholdIds(audits: seq<(string, Json)>): seq<string>
  {
    if audits == [] then []
    else (if BelowThreshold(audits[0].1) then [audits[0].0] else []) + BelowThresholdIds(audits[1..])
  }

  function OpportunityIdsOf(s: seq<Opportunity>): seq<string>
  {
    if s == [] then [] else [s[0].id] + OpportunityIdsOf(s[1..])
  }

  function DiagnosticIdsOf(s: seq<Diagnostic>): seq<string>
  {
    if s == [] then [] else [s[0].id] + DiagnosticIdsOf(s[1..])
  }

  lemma {:induction false} OpportunityIdsOfAppend(s: seq<Opportunity>, o: Opportunity)
    ensures OpportunityIdsOf(s + [o]) == OpportunityIdsOf(s) + [o.id]
  {
    if s != [] {
      OpportunityIdsOfAppend(s[1..], o);
      assert (s + [o])[1..] == s[1..] + [o];
    }
  }

  lemma {:induction false} DiagnosticIdsOfAppend(s: seq<Diagnostic>, d: Diagnostic)
    ensures DiagnosticIdsOf(s + [d]) == DiagnosticIdsOf(s) + [d.id]
  {
    if s != [] {
      DiagnosticIdsOfAppend(s[1..], d);
      assert (s + [d])[1..] == s[1..] + [d];
    }
  }

  /** The audit loop completes exactly when no audit makes it raise. */
  lemma {:induction false} SplitFromTotal(rest: seq<(string, Json)>, opps: seq<Opportunity>, diags: seq<Diagnostic>)
    ensures SplitFrom(rest, opps, diags).Ok? <==>
      forall i :: 0 <= i < |rest| ==> ClassifyAudit(rest[i].0, rest[i].1).Ok?
    decreases |rest|
  {
    if rest != [] {
      var c := ClassifyAudit(rest[0].0, rest[0].1);
      assert forall i :: 1 <= i < |rest| ==> rest[i] == rest[1..][i - 1];
      match c {
        case Raised =>
        case Ok(Skipped) =>
          SplitFromTotal(rest[1..], opps, diags);
        case Ok(AsOpportunity(o)) =>
          SplitFromTotal(rest[1..], opps + [o], diags);
        case Ok(AsDiagnostic(d)) =>
          SplitFromTotal(rest[1..], opps, diags + [d]);
      }
    }
  }

  /** The opportunities list gains, in document order, the ids of the
      audits below the threshold whose details say "opportunity". */
  lemma {:induction false} SplitFromOpportunities(rest: seq<(string, Json)>, opps: seq<Opportunity>, diags: seq<Diagnostic>)
    ensures SplitFrom(rest, opps, diags).Ok? ==>
      OpportunityIdsOf(SplitFrom(rest, opps, diags).value.0) == OpportunityIdsOf(opps) + OpportunityIds(rest)
    decreases |rest|
  {
    if rest != [] {
      var c := ClassifyAudit(rest[0].0, rest[0].1);
      match c {
        case Raised =>
        case Ok(Skipped) =>
          SplitFromOpportunities(rest[1..], opps, diags);
        case Ok(AsOpportunity(o)) =>
          SplitFromOpportunities(rest[1..], opps + [o], diags);
          OpportunityIdsOfAppend(opps, o);
        case Ok(AsDiagnostic(d)) =>
          SplitFromOpportunities(rest[1..], opps, diags + [d]);
      }
    }
  }

  /** The diagnostics list gains, in document order, the ids of the other
      audits below the threshold. */
  lemma {:induction false} SplitFromDiagnostics(rest: seq<(string, Json)>, opps: seq<Opportunity>, diags: seq<Diagnostic>)
    ensures SplitFrom(rest, opps, diags).Ok? ==>
      DiagnosticIdsOf(SplitFrom(rest, opps, diags).value.1) == DiagnosticIdsOf(diags) + DiagnosticIds(rest)
    decreases |rest|
  {
    if rest != [] {
      var c := ClassifyAudit(rest[0].0, rest[0].1);
      match c {
        case Raised =>
        case Ok(Skipped) =>
          SplitFromDiagnostics(rest[1..], opps, diags);
        case Ok(AsOpportunity(o)) =>
          SplitFromDiagnostics(rest[1..], opps + [o], diags);
        case Ok(AsDiagnostic(d)) =>
          SplitFromDiagnostics(rest[1..], opps, diags + [d]);
          DiagnosticIdsOfAppend(diags, d);
      }
    }
  }

  /** The audit loop puts every audit with a non-null score below 0.9 into
      exactly one list, opportunities when its details say so and
      diagnostics otherwise, in document order; it completes exactly when
      no audit makes it raise. */
  lemma SplitFromCorrect(rest: seq<(string, Json)>, opps: seq<Opportunity>, diags: seq<Diagnostic>)
    ensures SplitFrom(rest, opps, diags).Ok? <==>
      forall i :: 0 <= i < |rest| ==> ClassifyAudit(rest[i].0, rest[i].1).Ok?
    ensures SplitFrom(rest, opps, diags).Ok? ==>
      && OpportunityIdsOf(SplitFrom(rest, opps, diags).value.0) == OpportunityIdsOf(opps) + OpportunityIds(rest)
      && DiagnosticIdsOf(SplitFrom(rest, opps, diags).value.1) == DiagnosticIdsOf(diags) + DiagnosticIds(rest)
  {
    SplitFromTotal(rest, opps, diags);
    SplitFromOpportunities(rest, opps, diags);
    SplitFromDiagnostics(rest, opps, diags);
  }

  /** Each audit below the threshold is counted in exactly one list. */
  lemma {:induction false} SplitIsPartition(audits: seq<(string, Json)>)
    ensures |OpportunityIds(audits)| + |DiagnosticIds(audits)| == |BelowThresholdIds(audits)|
  {
    if audits != [] { SplitIsPartition(audits[1..]); }
  }

  // ---------------------------------------------------------------- parser

  /** `lighthouseResult.categories.items()` and `lighthouseResult.audits.items()`;
      any of the three levels that is not a dict makes the parser raise. */
  function Sections(data: Json): Result<(seq<(string, Json)>, seq<(string, Json)>)>
  {
    if !data.JObj? then Raised
    else
      var lh := Field(data.members, "lighthouseResult", JObj([]));
      if !lh.JObj? then Raised
      else
        var cats := Field(lh.members, "categories", JObj([]));
        var audits := Field(lh.members, "audits", JObj([]));
        if cats.JObj? && audits.JObj? then Ok((Items(cats.members), Items(audits.members))) else Raised
  }

  /** `_parse_pagespeed_data`: anything that raises inside it is caught and
      turned into the error marker. */
  function ParsePageSpeed(data: Json): (r: PerfAnalysis)
    ensures r.PerfOk? ==> |r.opportunities| <= 10 && |r.diagnostics| <= 10 && r.raw == data
    ensures r.PerfError? ==> r.fault == ParseFailed
    ensures !data.JObj? ==> r.PerfError?
  {
    match Sections(data)
    case Raised => PerfError(ParseFailed)
    case Ok((cats, audits)) => ParseSections(cats, audits, data)
  }

  /** The parser's work on the two sections of `data`. */
  function ParseSections(cats: seq<(string, Json)>, audits: seq<(string, Json)>, data: Json): (r: PerfAnalysis)
    ensures r.PerfOk? ==> |r.opportunities| <= 10 && |r.diagnostics| <= 10 && r.raw == data
    ensures r.PerfError? ==> r.fault == ParseFailed
  {
    match (ScoresFrom(cats, map[]), VitalsOf(audits), SplitFrom(audits, [], []))
    case (Ok(scores), Ok(vitals), Ok((opps, diags))) =>
      PerfOk(scores, vitals, Take(opps, 10), Take(diags, 10), data)
    case _ => PerfError(ParseFailed)
  }

  /** The parsed lists are the first ten audits of each kind, and every
      category the response carries is scored. */
  lemma ParsedAudits(data: Json)
    requires ParsePageSpeed(data).PerfOk?
    ensures var r := ParsePageSpeed(data);
      var audits := Sections(data).value.1;
      && OpportunityIdsOf(r.opportunities) == Take(OpportunityIds(audits), 10)
      && DiagnosticIdsOf(r.diagnostics) == Take(DiagnosticIds(audits), 10)
      && r.scores.Keys == Names(Sections(data).value.0)
  {
    var sections := Sections(data).value;
    var cats := sections.0;
    var audits := sections.1;
    var sc := ScoresFrom(cats, map[]);
    var split := SplitFrom(audits, [], []);
    assert sc.Ok? && split.Ok?;
    var r := ParsePageSpeed(data);
    assert r.scores == sc.value && r.opportunities == Take(split.value.0, 10)
        && r.diagnostics == Take(split.value.1, 10);
    FirstTenOfEachKind(cats, audits);
  }

  /** The parser fails exactly when a section is not a dict, a
      category's details or a vital's audit is not a dict, or an audit
      makes the classification raise. */
  lemma ParsePageSpeedFails(data: Json)
    ensures ParsePageSpeed(data).PerfError? <==>
      || Sections(data).Raised?
      || (exists i :: 0 <= i < |Sections(data).value.0| && !Sections(data).value.0[i].1.JObj?)
      || VitalsOf(Sections(data).value.1).Raised?
      || (exists i :: 0 <= i < |Sections(data).value.1|
                   && ClassifyAudit(Sections(data).value.1[i].0, Sections(data).value.1[i].1).Raised?)
  {
    if Sections(data).Ok? {
      var (cats, audits) := Sections(data).value;
      ScoresFromTotal(cats, map[]);
      SplitFromTotal(audits, [], []);
    }
  }

  /** On categories with distinct names, the scores loop gives each
      category the entry built from its own details. */
  lemma DistinctScores(cats: seq<(string, Json)>)
    requires DistinctNames(cats) && ScoresFrom(cats, map[]).Ok?
    ensures var m := ScoresFrom(cats, map[]).value;
      && m.Keys == Names(cats)
      && forall i :: 0 <= i < |cats| ==> cats[i].1.JObj? && m[cats[i].0] == EntryOf(cats[i].1.members)
  {
    ScoresFromCorrect(cats, map[]);
    assert forall i :: 0 <= i < |cats| ==> LastWithName(cats, i);
  }

  /** A parsed response scores every category from its own details and
      carries the vitals of `VitalsOf`. */
  lemma ParsePageSpeedScores(data: Json)
    requires ParsePageSpeed(data).PerfOk?
    ensures var r, cats := ParsePageSpeed(data), Sections(data).value.0;
      && Ok(r.vitals) == VitalsOf(Sections(data).value.1)
      && r.scores.Keys == Names(cats)
      && forall i :: 0 <= i < |cats| ==> cats[i].1.JObj? && r.scores[cats[i].0] == EntryOf(cats[i].1.members)
  {
    var sections := Sections(data).value;
    var cats := sections.0;
    assert DistinctNames(cats);
    assert ParsePageSpeed(data) == ParseSections(cats, sections.1, data);
    DistinctScores(cats);
  }

  /** The parser fails exactly when a section is not a dict, a category's
      details or a vital's audit is not a dict, or an audit makes the
      classification raise; otherwise every category is scored from its own
      details and the vitals are those of `VitalsOf`. */
  lemma ParsePageSpeedCorrect(data: Json)
    ensures ParsePageSpeed(data).PerfError? <==>
      || Sections(data).Raised?
      || (exists i :: 0 <= i < |Sections(data).value.0| && !Sections(data).value.0[i].1.JObj?)
      || VitalsOf(Sections(data).value.1).Raised?
      || (exists i :: 0 <= i < |Sections(data).value.1|
                   && ClassifyAudit(Sections(data).value.1[i].0, Sections(data).value.1[i].1).Raised?)
    ensures ParsePageSpeed(data).PerfOk? ==>
      var r, cats := ParsePageSpeed(data), Sections(data).value.0;
      && Ok(r.vitals) == VitalsOf(Sections(data).value.1)
      && r.scores.Keys == Names(cats)
      && forall i :: 0 <= i < |cats| ==> cats[i].1.JObj? && r.scores[cats[i].0] == EntryOf(cats[i].1.members)
  {
    ParsePageSpeedFails(data);
    if ParsePageSpeed(data).PerfOk? {
      ParsePageSpeedScores(data);
    }
  }

  /** What a completed pass over the two sections yields: the first ten
      audits of each kind, and an entry for every category. */
  lemma FirstTenOfEachKind(cats: seq<(string, Json)>, audits: seq<(string, Json)>)
    requires ScoresFrom(cats, map[]).Ok? && SplitFrom(audits, [], []).Ok?
    ensures var split := SplitFrom(audits, [], []).value;
      && OpportunityIdsOf(Take(split.0, 10)) == Take(OpportunityIds(audits), 10)
      && DiagnosticIdsOf(Take(split.1, 10)) == Take(DiagnosticIds(audits), 10)
      && ScoresFrom(cats, map[]).value.Keys == Names(cats)
  {
    var split := SplitFrom(audits, [], []).value;
    SplitFromOpportunities(audits, [], []);
    SplitFromDiagnostics(audits, [], []);
    ScoresFromKeys(cats, map[]);
    TakeOpportunityIds(split.0, 10);
    TakeDiagnosticIds(split.1, 10);
  }

  lemma {:induction false} TakeOpportunityIds(s: seq<Opportunity>, n: nat)
    ensures OpportunityIdsOf(Take(s, n)) == Take(OpportunityIdsOf(s), n)
    ensures |OpportunityIdsOf(s)| == |s|
  {
    if s != [] {
      TakeOpportunityIds(s[1..], if n > 0 then n - 1 else 0);
      if n > 0 && |s| > n { assert Take(s, n)[1..] == Take(s[1..], n - 1); }
    }
  }

  lemma {:induction false} TakeDiagnosticIds(s: seq<Diagnostic>, n: nat)
    ensures DiagnosticIdsOf(Take(s, n)) == Take(DiagnosticIdsOf(s), n)
    ensures |DiagnosticIdsOf(s)| == |s|
  {
    if s != [] {
      TakeDiagnosticIds(s[1..], if n > 0 then n - 1 else 0);
      if n > 0 && |s| > n { assert Take(s, n)[1..] == Take(s[1..], n - 1); }
    }
  }

  /** The parser as the source writes it: a loop filling `scores`, the Core
      Web Vitals lookups, and a loop appending to the two lists. */
  method ParsePageSpeedData(data: Json) returns (r: PerfAnalysis)
    ensures r == ParsePageSpeed(data)
  {
    if Sections(data).Raised? {
      return PerfError(ParseFailed);
    }
    var (cats, audits) := Sections(data).value;

    var scores: map<string, CategoryEntry> := map[];
    var i := 0;
    while i < |cats|
      invariant 0 <= i <= |cats|
      invariant ScoresFrom(cats, map[]) == ScoresFrom(cats[i..], scores)
    {
      var (category, details) := cats[i];
      if !details.JObj? {
        return PerfError(ParseFailed);
      }
      scores := scores[category := EntryOf(details.members)];
      i := i + 1;
    }

    var vitals := VitalsOf(audits);
    if vitals.Raised? {
      return PerfError(ParseFailed);
    }

    var opportunities: seq<Opportunity> := [];
    var diagnostics: seq<Diagnostic> := [];
    var j := 0;
    while j < |audits|
      invariant 0 <= j <= |audits|
      invariant SplitFrom(audits, [], []) == SplitFrom(audits[j..], opportunities, diagnostics)
    {
      var c := ClassifyAudit(audits[j].0, audits[j].1);
      match c {
        case Raised => return PerfError(ParseFailed);
        case Ok(Skipped) =>
        case Ok(AsOpportunity(o)) => opportunities := opportunities + [o];
        case Ok(AsDiagnostic(d)) => diagnostics := diagnostics + [d];
      }
      j := j + 1;
    }
    r := PerfOk(scores, vitals.value, Take(opportunities, 10), Take(diagnostics, 10), data);
  }

  /** `_analyze_performance`: no API key, a transport fault, a non-200
      status or an undecodable body give the error marker; a 200 with a
      JSON body is parsed. */
  function AnalyzePerformance(hasApiKey: bool, reply: PageSpeedReply): (r: PerfAnalysis)
    ensures !hasApiKey ==> r == PerfError(ApiKeyMissing)
    ensures hasApiKey && reply.HttpReply? && reply.status != 200 ==> r == PerfError(HttpStatus(reply.status, reply.text))
    ensures hasApiKey && reply.HttpReply? && reply.status == 200 && reply.body.Some? ==> r == ParsePageSpeed(reply.body.value)
    ensures r.PerfError? <==> !hasApiKey || reply.TransportError? || reply.status != 200 || reply.body.None?
                              || ParsePageSpeed(reply.body.value).PerfError?
  {
    if !hasApiKey then PerfError(ApiKeyMissing)
    else match reply
      case TransportError => PerfError(RequestFailed)
      case HttpReply(status, body, text) =>
        if status != 200 then PerfError(HttpStatus(status, text))
        else match body
          case None => PerfError(RequestFailed)
          case Some(data) => ParsePageSpeed(data)
  }
}
