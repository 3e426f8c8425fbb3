/** The SEO probe (`_analyze_seo`): title and meta description with their
    "optimal" length windows, heading texts, image alt-text coverage, the
    internal/external link counts and a few presence flags. The HTTP
    request and the HTML parser are not modelled: the probe starts from
    what the parser finds on the page. */
module SeoProbe {
  import opened PyValues
  import opened Text

  datatype MetaTags = MetaTags(
    viewport: bool, robots: bool, canonical: bool,
    ogTitle: bool, ogDescription: bool, twitterCard: bool)

  /** What the HTML parser finds on the fetched page. */
  datatype SeoPage = SeoPage(
    title: Option<string>,          // text of the first <title>, None without one
    description: string,            // content of <meta name="description">, "" without one
    headings: seq<seq<string>>,     // texts of the h1 ... h6 elements, one list per level
    imageAlts: seq<Option<string>>, // alt attribute of each <img>, None when absent
    hrefs: seq<string>,             // href of each <a> that has one, in document order
    schemaScripts: nat,             // number of application/ld+json scripts
    metaTags: MetaTags)

  datatype TextField = TextField(text: string, length: nat, optimal: bool)
  datatype ImageStats = ImageStats(total: nat, withAlt: nat, withoutAlt: nat, altCoverage: real)
  datatype LinkStats = LinkStats(internal: nat, external: nat, broken: nat)
  datatype UrlStructure = UrlStructure(hasHttps: bool, wwwUsage: bool, urlLength: nat)

  datatype SeoReport = SeoReport(
    title: TextField, metaDescription: TextField, headings: seq<seq<string>>,
    images: ImageStats, links: LinkStats, schemaMarkup: bool,
    metaTags: MetaTags, urlStructure: UrlStructure)

  /** The probe's dict, or `{}` when the fetch, the parser or a URL
      parse raised. */
  datatype SeoAnalysis = SeoFailed | SeoOk(report: SeoReport)

  /** `seo_analysis.get('title', {})` as its readers see it: a failed probe
      reads as `{}`, so its text is empty, its length 0 and it is not optimal. */
  function TitleOf(seo: SeoAnalysis): TextField
  {
    if seo.SeoOk? then seo.report.title else TextField("", 0, false)
  }

  /** `seo_analysis.get('meta_description', {})`, read the same way. */
  function DescriptionOf(seo: SeoAnalysis): TextField
  {
    if seo.SeoOk? then seo.report.metaDescription else TextField("", 0, false)
  }

  /** `seo_analysis.get('images', {}).get('alt_coverage', default)`. */
  function AltCoverageOr(seo: SeoAnalysis, default: real): real
  {
    if seo.SeoOk? then seo.report.images.altCoverage else default
  }

  /** A text with its length and whether the length lies in [lo, hi]. */
  function TextFieldOf(text: string, lo: nat, hi: nat): (r: TextField)
    ensures r.text == text && r.length == |text|
    ensures r.optimal <==> lo <= |text| <= hi
  {
    TextField(text, |text|, lo <= |text| <= hi)
  }

  function TitleText(page: SeoPage): string
  {
    match page.title
    case Some(t) => Strip(t)
    case None => ""
  }

  function StripAll(texts: seq<string>): (r: seq<string>)
    ensures |r| == |texts| && forall i :: 0 <= i < |texts| ==> r[i] == Strip(texts[i])
  {
    seq(|texts|, i requires 0 <= i < |texts| => Strip(texts[i]))
  }

  /** Each heading level's texts, stripped. */
  function StripLevels(levels: seq<seq<string>>): (r: seq<seq<string>>)
    ensures |r| == |levels| && forall i :: 0 <= i < |levels| ==> r[i] == StripAll(levels[i])
  {
    seq(|levels|, i requires 0 <= i < |levels| => StripAll(levels[i]))
  }

  // ---------------------------------------------------------------- images

  /** `img.get('alt')` is truthy: present and non-empty. */
  predicate HasAlt(alt: Option<string>)
  {
    alt.Some? && alt.value != ""
  }

  function WithAltCount(alts: seq<Option<string>>): (n: nat)
    ensures n <= |alts|
    ensures n == |alts| <==> forall i :: 0 <= i < |alts| ==> HasAlt(alts[i])
  {
    if alts == [] then 0
    else
      var rest := WithAltCount(alts[1..]);
      assert forall i :: 1 <= i < |alts| ==> alts[i] == alts[1..][i - 1];
      (if HasAlt(alts[0]) then 1 else 0) + rest
  }

  /** The image statistics: every image has or lacks alt text, and the
      coverage is the fraction that has it, 0 on a page without images. */
  function ImageStatsOf(alts: seq<Option<string>>): (r: ImageStats)
    ensures r.total == |alts| && r.withAlt + r.withoutAlt == r.total
    ensures 0.0 <= r.altCoverage <= 1.0
    ensures r.total == 0 ==> r.altCoverage == 0.0
    ensures r.total > 0 ==> r.altCoverage * r.total as real == r.withAlt as real
    ensures r.altCoverage == 1.0 <==> |alts| > 0 && forall i :: 0 <= i < |alts| ==> HasAlt(alts[i])
  {
    var w := WithAltCount(alts);
    var coverage := if |alts| == 0 then 0.0 else w as real / |alts| as real;
    assert |alts| > 0 ==> 0.0 <= coverage <= 1.0 && coverage * |alts| as real == w as real
                          && (coverage == 1.0 <==> w == |alts|) by {
      if |alts| > 0 {
        FractionFacts(w, |alts|);
      }
    }
    ImageStats(|alts|, w, |alts| - w, coverage)
  }

  // ---------------------------------------------------------------- links

  datatype LinkKind = Internal | External | Ignored

  /** One link of the page at `page`. An absolute link (`http` prefix) is
      internal when its host equals the page's; a root-relative link (`/`
      prefix) is resolved with `urljoin` and is internal; anything else is
      not counted. Both `urlparse` and `urljoin` parse the link and the
      page URL, so either failing to parse raises. */
  function ClassifyLink(href: string, page: string, parse: UrlParser): (r: Result<LinkKind>)
    ensures r.Raised? <==> (StartsWith(href, "http") || StartsWith(href, "/"))
                           && (parse(href).None? || parse(page).None?)
    ensures r == Ok(External) <==> (StartsWith(href, "http") && parse(href).Some? && parse(page).Some?
                                    && parse(href).value.netloc != parse(page).value.netloc)
    ensures r == Ok(Ignored) <==> !StartsWith(href, "http") && !StartsWith(href, "/")
    ensures (StartsWith(href, "/") && r.Ok?) ==> r == Ok(Internal)
  {
    if StartsWith(href, "http") then
      assert href[..4][0] == 'h';
      match (parse(href), parse(page))
      case (Some(h), Some(u)) => Ok(if h.netloc == u.netloc then Internal else External)
      case _ => Raised
    else if StartsWith(href, "/") then
      if parse(href).Some? && parse(page).Some? then Ok(Internal) else Raised
    else Ok(Ignored)
  }

  /** The link loop: counts so far plus the links still to visit. */
  function Tally(hrefs: seq<string>, page: string, parse: UrlParser, internal: nat, external: nat): Result<LinkStats>
    decreases |hrefs|
  {
    if hrefs == [] then Ok(LinkStats(internal, external, 0))
    else
      match ClassifyLink(hrefs[0], page, parse)
      case Raised => Raised
      case Ok(Internal) => Tally(hrefs[1..], page, parse, internal + 1, external)
      case Ok(External) => Tally(hrefs[1..], page, parse, internal, external + 1)
      case Ok(Ignored) => Tally(hrefs[1..], page, parse, internal, external)
  }

  predicate AllClassified(hrefs: seq<string>, page: string, parse: UrlParser)
  {
    forall i :: 0 <= i < |hrefs| ==> ClassifyLink(hrefs[i], page, parse).Ok?
  }

  /** How many of the links are of the given kind. */
  function KindCount(hrefs: seq<string>, page: string, parse: UrlParser, k: LinkKind): nat
  {
    if hrefs == [] then 0
    else (if ClassifyLink(hrefs[0], page, parse) == Ok(k) then 1 else 0)
         + KindCount(hrefs[1..], page, parse, k)
  }

  /** The loop raises exactly when some link fails to parse; otherwise it
      counts the internal and the external links and never a broken one. */
  lemma {:induction false} TallyCorrect(hrefs: seq<string>, page: string, parse: UrlParser, internal: nat, external: nat)
    ensures Tally(hrefs, page, parse, internal, external).Ok? <==> AllClassified(hrefs, page, parse)
    ensures Tally(hrefs, page, parse, internal, external).Ok? ==>
      Tally(hrefs, page, parse, internal, external).value
        == LinkStats(internal + KindCount(hrefs, page, parse, Internal),
                     external + KindCount(hrefs, page, parse, External), 0)
    decreases |hrefs|
  {
    if hrefs != [] {
      var k := ClassifyLink(hrefs[0], page, parse);
      assert forall i :: 1 <= i < |hrefs| ==> hrefs[i] == hrefs[1..][i - 1];
      match k
      case Raised =>
      case Ok(Internal) => TallyCorrect(hrefs[1..], page, parse, internal + 1, external);
      case Ok(External) => TallyCorrect(hrefs[1..], page, parse, internal, external + 1);
      case Ok(Ignored) => TallyCorrect(hrefs[1..], page, parse, internal, external);
    }
  }

  /** Every link is internal, external or not counted. */
  lemma {:induction false} KindCountsPartition(hrefs: seq<string>, page: string, parse: UrlParser)
    requires AllClassified(hrefs, page, parse)
    ensures KindCount(hrefs, page, parse, Internal) + KindCount(hrefs, page, parse, External)
            + KindCount(hrefs, page, parse, Ignored) == |hrefs|
    decreases |hrefs|
  {
    if hrefs != [] {
      assert forall i :: 1 <= i < |hrefs| ==> hrefs[i] == hrefs[1..][i - 1];
      KindCountsPartition(hrefs[1..], page, parse);
    }
  }

  /** The link loop of the probe. */
  method CountLinks(hrefs: seq<string>, page: string, parse: UrlParser) returns (r: Result<LinkStats>)
    ensures r == Tally(hrefs, page, parse, 0, 0)
  {
    var internal, external := 0, 0;
    var i := 0;
    while i < |hrefs|
      invariant 0 <= i <= |hrefs|
      invariant Tally(hrefs, page, parse, 0, 0) == Tally(hrefs[i..], page, parse, internal, external)
    {
      var href := hrefs[i];
      assert hrefs[i..][0] == href && hrefs[i..][1..] == hrefs[i + 1..];
      if StartsWith(href, "http") {
        var h, u := parse(href), parse(page);
        if h.None? || u.None? {
          return Raised;
        }
        if h.value.netloc == u.value.netloc {
          internal := internal + 1;
        } else {
          external := external + 1;
        }
      } else if StartsWith(href, "/") {
        if parse(href).None? || parse(page).None? {
          return Raised;
        }
        internal := internal + 1;
      }
      i := i + 1;
    }
    assert hrefs[i..] == [];
    return Ok(LinkStats(internal, external, 0));
  }

  // ---------------------------------------------------------------- the probe

  /** `url_structure`: whether the address is HTTPS, whether it contains
      "www.", and its length. */
  function UrlStructureOf(url: string): (r: UrlStructure)
    ensures r.hasHttps <==> StartsWith(url, "https://")
    ensures r.wwwUsage <==> Contains(url, "www.")
    ensures r.urlLength == |url|
  {
    UrlStructure(StartsWith(url, "https://"), Contains(url, "www."), |url|)
  }

  /** The report for a page whose links were tallied into `links`. */
  function ReportOf(url: string, pg: SeoPage, links: LinkStats): (rep: SeoReport)
    ensures rep.title.text == TitleText(pg) && rep.title.length == |TitleText(pg)|
    ensures rep.title.optimal <==> 50 <= |TitleText(pg)| <= 60
    ensures rep.metaDescription.text == pg.description && rep.metaDescription.length == |pg.description|
    ensures rep.metaDescription.optimal <==> 150 <= |pg.description| <= 160
    ensures rep.links == links
    ensures rep.schemaMarkup <==> pg.schemaScripts > 0
  {
    SeoReport(
      TextFieldOf(TitleText(pg), 50, 60),
      TextFieldOf(pg.description, 150, 160),
      StripLevels(pg.headings),
      ImageStatsOf(pg.imageAlts),
      links,
      pg.schemaScripts > 0,
      pg.metaTags,
      UrlStructureOf(url))
  }

  /** The SEO probe on the page at `url`; `page` is None when the request
      or the HTML parser raised. */
  function AnalyzeSeo(url: string, page: Option<SeoPage>, parse: UrlParser): (r: SeoAnalysis)
    ensures page.None? ==> r == SeoFailed
    ensures page.Some? ==> (r.SeoOk? <==> AllClassified(page.value.hrefs, url, parse))
    ensures r.SeoOk? ==>
      var rep, pg := r.report, page.value;
      && rep.title.text == TitleText(pg) && rep.title.length == |TitleText(pg)|
      && (rep.title.optimal <==> 50 <= |TitleText(pg)| <= 60)
      && rep.metaDescription.text == pg.description && rep.metaDescription.length == |pg.description|
      && (rep.metaDescription.optimal <==> 150 <= |pg.description| <= 160)
      && rep.images == ImageStatsOf(pg.imageAlts)
      && rep.links == LinkStats(KindCount(pg.hrefs, url, parse, Internal),
                                KindCount(pg.hrefs, url, parse, External), 0)
      && (rep.schemaMarkup <==> pg.schemaScripts > 0)
      && rep.headings == StripLevels(pg.headings)
      && rep.metaTags == pg.metaTags
      && (rep.urlStructure.hasHttps <==> StartsWith(url, "https://"))
      && rep.urlStructure == UrlStructureOf(url)
  {
    match page
    case None => SeoFailed
    case Some(pg) =>
      TallyCorrect(pg.hrefs, url, parse, 0, 0);
      match Tally(pg.hrefs, url, parse, 0, 0)
      case Raised => SeoFailed
      case Ok(links) => SeoOk(ReportOf(url, pg, links))
  }
}
