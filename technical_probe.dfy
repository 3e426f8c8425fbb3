/** The technical probe (`_analyze_technical`): HTTPS, the four security
    headers, robots.txt and sitemap.xml. The three HTTP requests are not
    modelled: the probe starts from their outcomes. */
module TechnicalProbe {
  import opened PyValues
  import opened Text

  /** The main page's response. Header names are compared without regard
      to case, as the response's header dict does. */
  datatype TechPage = TechPage(
    status: int, headers: seq<(string, string)>, elapsedSeconds: real, contentLength: nat)

  /** A request that raised, or the response's status and body text. */
  datatype Fetch = Unreachable | Reply(status: int, text: string)

  /** The sitemap request: unreachable, or its status and, when the XML
      parser succeeded, the `<lastmod>` text of each `<url>` entry (None for
      an entry without one). */
  datatype SitemapFetch = SitemapUnreachable | SitemapReply(status: int, entries: Option<seq<Option<string>>>)

  datatype SecurityHeaders = SecurityHeaders(
    contentSecurityPolicy: bool, xFrameOptions: bool,
    xContentTypeOptions: bool, strictTransportSecurity: bool)

  datatype RobotsInfo = RobotsInfo(found: bool, content: string, referencesSitemap: bool)

  datatype SitemapInfo = SitemapInfo(
    found: bool, url: string, urlCount: nat, lastModified: Option<string>, hasRobotsReference: bool)

  datatype TechReport = TechReport(
    hasSsl: bool, certificateValid: bool, securityHeaders: SecurityHeaders,
    responseTime: real, statusCode: int, contentType: string, contentLength: nat,
    robots: RobotsInfo, sitemap: SitemapInfo, server: string, poweredBy: string)

  /** The probe's dict, or `{}` when the main request raised. */
  datatype TechAnalysis = TechFailed | TechOk(report: TechReport)

  /** `technical_analysis.get('ssl', {}).get('has_ssl', False)`. */
  predicate HasSsl(tech: TechAnalysis)
  {
    tech.TechOk? && tech.report.hasSsl
  }

  // ---------------------------------------------------------------- headers

  predicate HasHeader(headers: seq<(string, string)>, name: string)
  {
    exists i :: 0 <= i < |headers| && Lower(headers[i].0) == Lower(name)
  }

  /** `headers.get(name, default)`. */
  function HeaderValue(headers: seq<(string, string)>, name: string, default: string): (r: string)
    ensures !HasHeader(headers, name) ==> r == default
    ensures HasHeader(headers, name) ==> exists i :: 0 <= i < |headers| && Lower(headers[i].0) == Lower(name) && headers[i].1 == r
  {
    if headers == [] then default
    else if Lower(headers[0].0) == Lower(name) then headers[0].1
    else
      var r := HeaderValue(headers[1..], name, default);
      assert forall i :: 1 <= i < |headers| ==> headers[i] == headers[1..][i - 1];
      r
  }

  /** Header lookup ignores case: two names that lower-case alike find the
      same header. */
  lemma {:induction false} HeaderLookupIgnoresCase(headers: seq<(string, string)>, a: string, b: string, default: string)
    requires Lower(a) == Lower(b)
    ensures HasHeader(headers, a) == HasHeader(headers, b)
    ensures HeaderValue(headers, a, default) == HeaderValue(headers, b, default)
  {
    if headers != [] {
      HeaderLookupIgnoresCase(headers[1..], a, b, default);
    }
  }

  function SecurityHeadersOf(headers: seq<(string, string)>): SecurityHeaders
  {
    SecurityHeaders(
      HasHeader(headers, "content-security-policy"), HasHeader(headers, "x-frame-options"),
      HasHeader(headers, "x-content-type-options"), HasHeader(headers, "strict-transport-security"))
  }

  // ---------------------------------------------------------------- robots.txt

  /** The body of robots.txt when it was served with status 200, else "". */
  function RobotsText(robots: Fetch): string
  {
    if robots.Reply? && robots.status == 200 then robots.text else ""
  }

  /** The robots.txt summary: present when the text is non-empty, the
      first 500 characters of it, and whether it mentions a sitemap in any
      letter case. */
  function RobotsInfoOf(text: string): (r: RobotsInfo)
    ensures r.found <==> text != []
    ensures |r.content| <= 500 && |r.content| <= |text| && r.content == text[..|r.content|]
    ensures |text| <= 500 ==> r.content == text
    ensures r.referencesSitemap <==> Contains(Lower(text), "sitemap")
    ensures r.referencesSitemap ==> r.found
  {
    if text == [] then
      assert !Contains(Lower(text), "sitemap");
      RobotsInfo(false, "", false)
    else RobotsInfo(true, Take(text, 500), Contains(Lower(text), "sitemap"))
  }

  // ---------------------------------------------------------------- sitemap

  /** The non-empty `<lastmod>` texts, in document order. */
  function Dates(entries: seq<Option<string>>): (r: seq<string>)
    ensures forall d :: d in r ==> d != "" && Some(d) in entries
    ensures forall d :: d != "" && Some(d) in entries ==> d in r
  {
    if entries == [] then []
    else
      var rest := Dates(entries[1..]);
      assert forall e :: e in entries <==> e == entries[0] || e in entries[1..];
      (if entries[0].Some? && entries[0].value != "" then [entries[0].value] else []) + rest
  }

  /** The most recent modification date: the greatest of the non-empty
      `<lastmod>` texts in string order, None when there is none. */
  function LatestDate(entries: seq<Option<string>>): (r: Option<string>)
    ensures r.None? <==> forall d :: Some(d) in entries ==> d == ""
    ensures r.Some? ==> r.value != "" && Some(r.value) in entries
    ensures r.Some? ==> forall d :: Some(d) in entries && d != "" ==> LexLe(d, r.value)
  {
    var dates := Dates(entries);
    if dates == [] then None
    else
      assert dates[0] in dates;
      Some(LexMax(dates))
  }

  /** The sitemap summary. It is found when served with status 200; the
      entry count, date and robots reference are filled in only when its
      XML also parsed. */
  function SitemapInfoOf(sitemapUrl: string, sitemap: SitemapFetch, robotsText: string): (r: SitemapInfo)
    ensures r.url == sitemapUrl
    ensures r.found <==> sitemap.SitemapReply? && sitemap.status == 200
    ensures !r.found ==> r == SitemapInfo(false, sitemapUrl, 0, None, false)
    ensures r.found && sitemap.entries.None? ==> r == SitemapInfo(true, sitemapUrl, 0, None, false)
    ensures r.found && sitemap.entries.Some? ==>
      && r.urlCount == |sitemap.entries.value|
      && r.lastModified == LatestDate(sitemap.entries.value)
      && (r.hasRobotsReference <==> Contains(Lower(robotsText), "sitemap"))
  {
    match sitemap
    case SitemapReply(200, Some(entries)) =>
      SitemapInfo(true, sitemapUrl, |entries|, LatestDate(entries), Contains(Lower(robotsText), "sitemap"))
    case SitemapReply(200, None) => SitemapInfo(true, sitemapUrl, 0, None, false)
    case _ => SitemapInfo(false, sitemapUrl, 0, None, false)
  }

  // ---------------------------------------------------------------- the probe

  /** The technical probe on `url`. `page` is None when the main request
      raised; `join` stands for `urljoin`. */
  function AnalyzeTechnical(url: string, page: Option<TechPage>, robots: Fetch, sitemap: SitemapFetch,
                            join: (string, string) -> string): (r: TechAnalysis)
    ensures page.None? <==> r.TechFailed?
    ensures r.TechOk? ==>
      && (r.report.hasSsl <==> StartsWith(url, "https://"))
      && r.report.certificateValid
      && r.report.securityHeaders == SecurityHeadersOf(page.value.headers)
      && r.report.statusCode == page.value.status
      && r.report.contentType == HeaderValue(page.value.headers, "content-type", "")
      && r.report.robots == RobotsInfoOf(RobotsText(robots))
      && r.report.sitemap == SitemapInfoOf(join(url, "/sitemap.xml"), sitemap, RobotsText(robots))
  {
    match page
    case None => TechFailed
    case Some(pg) =>
      var robotsText := RobotsText(robots);
      TechOk(TechReport(
        StartsWith(url, "https://"), true, SecurityHeadersOf(pg.headers),
        pg.elapsedSeconds, pg.status, HeaderValue(pg.headers, "content-type", ""), pg.contentLength,
        RobotsInfoOf(robotsText), SitemapInfoOf(join(url, "/sitemap.xml"), sitemap, robotsText),
        HeaderValue(pg.headers, "server", ""), HeaderValue(pg.headers, "x-powered-by", "")))
  }
}
