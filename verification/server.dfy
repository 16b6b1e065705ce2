/** The audit request handler (`POST /api/audit` in server.js): the url
    check, the `crawlLimit` clamp, the per-page reports and the summary
    folded over the crawl's pages. The four analyzers are oracles. */
module Server {
  import opened Wrappers
  import opened Fetch
  import opened Crawler
  import Score

  // ---------------------------------------------------------------------
  // Request fields
  // ---------------------------------------------------------------------

  /** A JavaScript number: what `Number(maxPages)` gives. */
  datatype JsNumber = NaN | Finite(value: real) | Infinity | NegInfinity

  /** A JSON request-body field (`Undefined` when the field is missing). */
  datatype JsValue = Undefined | Null | Bool(b: bool) | Number(n: JsNumber) | Str(s: string) | Other

  /** The url check of server.js:28-30: a missing, empty or non-string
      `url` is answered with status 400. */
  function RequestedUrl(url: JsValue): (r: Result<string, int>)
    ensures r.Ok? <==> url.Str? && url.s != ""
    ensures r.Ok? ==> r.value == url.s
    ensures r.Err? ==> r.error == 400
  {
    if url.Str? && url.s != "" then Ok(url.s) else Err(400)
  }

  /** `Math.max(1, Math.min(Number(maxPages) || 5, 20))`. */
  function CrawlLimit(n: JsNumber): (limit: real)
    ensures 1.0 <= limit <= 20.0
    ensures n.NaN? || n == Finite(0.0) ==> limit == 5.0
    ensures n.NegInfinity? || (n.Finite? && n.value != 0.0 && n.value < 1.0) ==> limit == 1.0
    ensures n.Infinity? || (n.Finite? && n.value > 20.0) ==> limit == 20.0
    ensures n.Finite? && 1.0 <= n.value <= 20.0 ==> limit == n.value
  {
    // `Number(maxPages) || 5`: NaN and 0 are falsy
    var m := if n.NaN? || n == Finite(0.0) then Finite(5.0) else n;
    // `Math.min(m, 20)`
    var capped := match m
      case Finite(v) => Finite(if v < 20.0 then v else 20.0)
      case Infinity => Finite(20.0)
      case _ => m;
    // `Math.max(1, capped)`
    match capped
    case Finite(v) => if v < 1.0 then 1.0 else v
    case _ => 1.0
  }

  /** The integer page budget equivalent to a crawl limit: the crawl loop
      only compares integer counts with the limit (`pages.length < maxPages`),
      and for an integer k, k < limit exactly when k < PageBudget(limit). */
  function PageBudget(limit: real): (n: int)
    requires limit >= 1.0
    ensures n >= 1 && limit <= n as real < limit + 1.0
    ensures limit == limit.Floor as real ==> n == limit.Floor
  {
    -((-limit).Floor)
  }

  lemma BudgetMatchesLimit(limit: real, k: int)
    requires limit >= 1.0
    ensures (k as real) < limit <==> k < PageBudget(limit)
  {
  }

  // ---------------------------------------------------------------------
  // Per-page reports and the summary
  // ---------------------------------------------------------------------

  /** What an analyzer returns. */
  datatype Analysis = Analysis(issues: seq<Score.Issue>, recommendations: seq<string>)

  /** The four analyzers, with the page fields each is given. */
  datatype Analyzers = Analyzers(
    seo: (string, string, map<string, string>) -> Analysis,
    security: (string, map<string, string>) -> Analysis,
    performance: (string, string, map<string, string>, int, nat) -> Analysis,
    accessibility: (string, string) -> Analysis)

  datatype PageReport = PageReport(url: string, seo: Analysis, security: Analysis, performance: Analysis, accessibility: Analysis)

  /** The report of one page (server.js:36-42). */
  function ReportPage(analyzers: Analyzers, page: FetchResult): (r: PageReport)
    ensures r.url == page.finalUrl
  {
    PageReport(
      page.finalUrl,
      analyzers.seo(page.finalUrl, page.html, page.headers),
      analyzers.security(page.finalUrl, page.headers),
      analyzers.performance(page.finalUrl, page.html, page.headers, page.responseMs, page.sizeBytes),
      analyzers.accessibility(page.finalUrl, page.html))
  }

  /** One report per crawled page, in crawl order. */
  function PerPageReports(analyzers: Analyzers, pages: seq<FetchResult>): (r: seq<PageReport>)
    ensures |r| == |pages|
    ensures forall i :: 0 <= i < |pages| ==> r[i].url == pages[i].finalUrl
  {
    seq(|pages|, i requires 0 <= i < |pages| => ReportPage(analyzers, pages[i]))
  }

  /** `pages.reduce((sum, p) => sum + (p.sizeBytes || 0), 0)`. */
  function TotalBytes(pages: seq<FetchResult>): (t: nat)
    ensures t == 0 <==> forall i :: 0 <= i < |pages| ==> pages[i].sizeBytes == 0
    ensures |pages| == 1 ==> t == pages[0].sizeBytes
    decreases |pages|
  {
    if pages == [] then 0
    else
      var init := pages[..|pages| - 1];
      assert forall i :: 0 <= i < |init| ==> init[i] == pages[i];
      TotalBytes(init) + pages[|pages| - 1].sizeBytes
  }

  /** `pages.reduce((sum, p) => sum + (p.timing?.responseMs || 0), 0)`. */
  function TotalResponseMs(pages: seq<FetchResult>): (t: int)
    ensures (forall i :: 0 <= i < |pages| ==> pages[i].responseMs >= 0) ==> t >= 0
    ensures |pages| == 1 ==> t == pages[0].responseMs
    decreases |pages|
  {
    if pages == [] then 0
    else
      var init := pages[..|pages| - 1];
      assert forall i :: 0 <= i < |init| ==> init[i] == pages[i];
      TotalResponseMs(init) + pages[|pages| - 1].responseMs
  }

  /** Byte totals add up over a concatenation. */
  lemma {:induction false} TotalBytesAppend(a: seq<FetchResult>, b: seq<FetchResult>)
    ensures TotalBytes(a + b) == TotalBytes(a) + TotalBytes(b)
    decreases |b|
  {
    if b == [] {
      assert a + b == a;
    } else {
      var b' := b[..|b| - 1];
      assert (a + b)[..|a + b| - 1] == a + b';
      assert (a + b)[|a + b| - 1] == b[|b| - 1];
      TotalBytesAppend(a, b');
    }
  }

  /** The total counts every page's size: it is at least the size of any
      one page. */
  lemma {:induction false} TotalBytesCountsEachPage(pages: seq<FetchResult>, i: int)
    requires 0 <= i < |pages|
    ensures pages[i].sizeBytes <= TotalBytes(pages)
    decreases |pages|
  {
    if i < |pages| - 1 {
      TotalBytesCountsEachPage(pages[..|pages| - 1], i);
    }
  }

  /** `Math.round(total / Math.max(1, count))` on integers: the nearest
      integer to the average, halves rounded up. */
  function RoundedAverage(total: int, count: nat): (avg: int)
    ensures
      var d := if count < 1 then 1 else count;
      2 * d * avg - d <= 2 * total < 2 * d * avg + d
    ensures count <= 1 ==> avg == total
  {
    var d := if count < 1 then 1 else count;
    (2 * total + d) / (2 * d)
  }

  datatype Summary = Summary(pagesScanned: nat, totalBytes: nat, averageResponseMs: int)

  /** The summary of server.js:45-52. */
  function Summarize(pages: seq<FetchResult>, reports: seq<PageReport>): (s: Summary)
    ensures s.pagesScanned == |reports|
    ensures s.totalBytes == TotalBytes(pages)
    ensures s.averageResponseMs == RoundedAverage(TotalResponseMs(pages), |pages|)
    ensures pages == [] ==> s.totalBytes == 0 && s.averageResponseMs == 0
    ensures |pages| == 1 ==> s.totalBytes == pages[0].sizeBytes && s.averageResponseMs == pages[0].responseMs
  {
    Summary(|reports|, TotalBytes(pages), RoundedAverage(TotalResponseMs(pages), |pages|))
  }

  // ---------------------------------------------------------------------
  // The handler
  // ---------------------------------------------------------------------

  datatype AuditResponse =
    | BadRequest(status: int, error: string)
    | Audited(url: string, maxPages: real, startedAt: string, finishedAt: string,
              summary: Summary, reports: seq<PageReport>, errors: seq<CrawlError>)

  /** The `/api/audit` handler: check the url, clamp the page limit, crawl,
      analyze each page and summarize. `url` and `maxPages` are the request
      body's fields; the timestamps are the crawl's clock readings. */
  method Audit(env: Env, analyzers: Analyzers, url: JsValue, maxPages: JsNumber, startedAt: string, finishedAt: string)
    returns (response: AuditResponse, ghost crawl: Option<CrawlReport>,
             ghost dequeued: seq<string>, ghost fetched: seq<string>, ghost pushedBy: seq<seq<string>>)
    ensures response.BadRequest? <==> !(url.Str? && url.s != "")
    ensures response.BadRequest? ==> response.status == 400 && response.error == "url is required"
    // a rejected request runs no crawl
    ensures response.BadRequest? <==> crawl.None?
    ensures response.BadRequest? ==> dequeued == [] && fetched == [] && pushedBy == []
    ensures response.Audited? ==>
      && response.url == url.s
      && response.maxPages == CrawlLimit(maxPages)
      && response.summary.pagesScanned == |response.reports|
      && response.summary.pagesScanned <= PageBudget(response.maxPages) <= 20
    // the crawl the handler ran: the seed is the url, the budget the clamped limit
    ensures crawl.Some? ==>
      && crawl.value.startedAt == startedAt && crawl.value.finishedAt == finishedAt
      && Crawled(env, url.s, PageBudget(CrawlLimit(maxPages)), crawl.value.pages, crawl.value.errors,
                 dequeued, fetched, pushedBy)
    // the requested url is fetched first; with a budget of one page it is the only fetch
    ensures response.Audited? ==> fetched != [] && fetched[0] == url.s
    ensures response.Audited? && PageBudget(CrawlLimit(maxPages)) == 1 ==> fetched == [url.s]
    // what the handler answers with: that crawl's reports, summary, errors and timestamps
    ensures response.Audited? && crawl.Some? ==>
      && response.reports == PerPageReports(analyzers, crawl.value.pages)
      && response.summary == Summarize(crawl.value.pages, response.reports)
      && response.errors == crawl.value.errors
      && response.startedAt == startedAt && response.finishedAt == finishedAt
  {
    var requested := RequestedUrl(url);
    if requested.Err? {
      response := BadRequest(requested.error, "url is required");
      crawl, dequeued, fetched, pushedBy := None, [], [], [];
      return;
    }
    var crawlLimit := CrawlLimit(maxPages);
    var report;
    report, dequeued, fetched, pushedBy := CrawlSite(env, requested.value, PageBudget(crawlLimit), startedAt, finishedAt);
    crawl := Some(report);
    var reports := PerPageReports(analyzers, report.pages);
    var summary := Summarize(report.pages, reports);
    response := Audited(requested.value, crawlLimit, report.startedAt, report.finishedAt, summary, reports, report.errors);
  }
}
