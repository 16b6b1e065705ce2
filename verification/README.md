# Crawl engine of the website auditor — a Dafny model

The auditor crawls a bounded set of pages on one site and scores each page.
This project models its crawl engine (`crawler.js`) and the small pure parts
of the request handler (`server.js`) and of the score cards (`main.js`):

- **URL normalizer** (`Url.NormalizeUrl`): resolve an href against the
  page's URL, reject missing or empty hrefs, resolution failures and
  schemes other than `http:`/`https:`, and drop the fragment. URL parsing,
  resolution and origins follow the WHATWG URL Standard (section 4.4 and
  section 4.7). They are oracles here: a `Resolver` for `new URL(href, base)`
  and a parser for `new URL(s)`. Each returns a URL record or `None`.
- **Page fetcher** (`Fetch.FetchPage`): shapes the transport's outcome into
  the fetch result. A 2xx response whose body `Buffer.from` accepts gives
  `ok`, the post-redirect URL, the status, the headers and the body. Any
  other outcome gives the requested URL, no body, size 0 and a message:
  a transport error (a non-2xx status among them, with that status and
  headers), or the error `Buffer.from` throws on a body parsed into a
  JSON object, `true` or a non-zero number (no status, no headers).
  Header names are lower-cased in both cases.
- **Crawl engine** (`Crawler.CrawlSite`): the breadth-first loop over a FIFO
  queue with a visited set. It appends `pages` and `errors`, admits only
  links on the seed's origin, and stops when the queue is empty or the page
  budget is spent. The oracles it calls (URL resolution, URL parsing, the
  transport and the HTML link extraction) are the fields of `Crawler.Env`.
  Ghost results record the dequeue order, the fetched URLs and what each
  page pushed, so that the postconditions can state:
  - the page bound, and that the loop terminates;
  - FIFO order, and that each URL is fetched at most once;
  - same-origin admission;
  - what `pages` and `errors` contain;
  - the `maxPages = 1` and failed-seed runs.
- **Request handler** (`Server.Audit`): the url check (status 400), the
  `crawlLimit` clamp to [1, 20], one report per page, and the summary
  (page count, byte total, rounded average response time). The four
  analyzers are oracles.
- **Score cards** (`Score.CalcScore`, `Score.ClassOf`): 100 minus the
  severity penalties, floored at 0, and the bad/medium/good class.

Behaviours of the code that the model keeps as they are:

- The same link found twice on a page before it is visited is pushed twice.
  The second copy is dropped at dequeue (`Crawler.CandidatesKeepDuplicates`).
  Two spellings of `/about` on one page, such as `/about` and `/about#team`,
  give two queue entries.
- The visited set gets a URL when it is dequeued and fetched, not when it
  is pushed.
- A page whose link extraction throws stays in `pages` and also gets an
  `errors` entry with the same URL (`Crawler.AttemptErrors`), so one URL
  can be in both lists.
- The seed is not normalized. It is deduplicated as the raw string.

## Model

| member | source | states |
|---|---|---|
| `Url.NormalizeUrl` | crawler.js:5-16 | a result exists exactly when the href is present and non-empty, resolves, and has scheme `http:` or `https:`; the result is the href of the resolved URL with its fragment removed |
| `Url.NormalizedIsWebUrl` | crawler.js:8-12 | a normalized URL is the scheme and the rest of the resolved URL with no `#` part, and it starts with `http:` or `https:` |
| `Url.NormalizeIgnoresFragment` | crawler.js:10-12 | two hrefs that resolve to the same URL apart from the fragment normalize to the same string |
| `Url.NormalizeIdempotent` | crawler.js:5-16 | normalizing a normalized URL again returns it unchanged, when the resolver reads back the href it serialized |
| `Fetch.ToLower` | crawler.js:31 | the lower-cased name has the same length and no upper-case letter; each letter `A`-`Z` becomes its lower-case counterpart and every other character is kept, so a name without capitals is unchanged |
| `Fetch.LowerHeaders` | crawler.js:31 | every key of the header map is lower-case, and every listed header is found under its lower-cased name |
| `Fetch.LowerHeadersKeysFromList` | crawler.js:31 | every key of the header map comes from a header of the list |
| `Fetch.LowerHeadersLastWins` | crawler.js:31 | when names collide after lower-casing, the last header's value is kept |
| `Fetch.FetchPage` | crawler.js:18-56 | `ok` exactly when the transport resolved and the body could be measured, and `error` is null exactly then; a delivered page has the status, the lower-cased headers of the response, the body if it is text, its byte length, and the reported final URL or else the requested one; every failure keeps the requested URL, with empty html and size 0; a transport error gives its message, the status only if the answer had a non-zero one, and the answer's lower-cased headers or none; a body `Buffer.from` rejects gives what it threw, no status and no headers |
| `Crawler.TakeSnoc` | crawler.js:88-89 | a link found while there is room is taken, and one found with no room left changes nothing |
| `Crawler.AdmittedFetchesEachOnce` | crawler.js:67-69 | the dequeue filter fetches each URL at most once, and fetches exactly the non-empty dequeued URLs |
| `Crawler.AdmittedPrefix` | crawler.js:67-69 | the URLs fetched from the first n dequeued entries come first in fetch order |
| `Crawler.AdmittedFifo` | crawler.js:67-69 | a URL dequeued before another URL first appears is fetched before it (breadth-first, FIFO order) |
| `Crawler.Candidates` | crawler.js:80-94 | every link offered for the queue is non-empty, parses, is on the seed's origin and is not visited; there are at most as many as hrefs |
| `Crawler.CandidatesKeepDuplicates` | crawler.js:88-89 | two spellings of one unvisited same-origin link are both offered, so the queue can hold duplicates |
| `Crawler.ExpandLinks` | crawler.js:82-94 | the queue grows by the page's admissible links in document order, cut off once queue length plus page count reaches `maxPages` |
| `Crawler.AttemptErrors` | crawler.js:71-97 | each fetched URL adds at most one error entry, with its own URL; none exactly when the fetch succeeded and link extraction did not throw; a failed fetch adds `{url, error, status}` from the fetch result; a successful fetch whose link extraction throws adds `{url, error}` with the thrown message |
| `Crawler.Offer` | crawler.js:72-94 | a failed fetch offers no links; every offered link is non-empty, unvisited and on the seed's origin |
| `Crawler.OkPagesAreOk` | crawler.js:72-76 | `pages` holds only successful fetch results, with no error, and no more of them than fetched URLs |
| `Crawler.CandidatesSnoc` | crawler.js:83-90 | one more href on the page adds its normalized form exactly when that is admissible |
| `Crawler.WithinOffersAt` | crawler.js:82-94 | from the step-by-step log, each fetched page pushed a prefix of its offer, for any offer function |
| `Crawler.PushedWithinAt` | crawler.js:82-94 | the k-th fetched page pushed a prefix of the links it offered when the visited set was the URLs fetched up to it |
| `Crawler.PushedSameOrigin` | crawler.js:80-89 | every URL pushed onto the queue is on the seed's origin |
| `Crawler.VisitPage` | crawler.js:71-97 | one visit gives the fetch result, the error entries of that URL, and the first links of its offer that fit the budget |
| `Crawler.SkipKeepsInv` | crawler.js:67-68 | dropping an empty or visited entry keeps the loop invariant |
| `Crawler.VisitKeepsQueue` | crawler.js:66-89 | after a visit the queue is the rest of the old queue plus the pushed links, and queue length plus page count stays within `maxPages` |
| `Crawler.VisitKeepsLogs` | crawler.js:69-97 | after a visit, the visited set, `pages` and `errors` match the fetched URLs again |
| `Crawler.VisitKeepsInv` | crawler.js:67-97 | a visit keeps the loop invariant, including "only the seed was enqueued" when `maxPages = 1` or the seed's fetch fails |
| `Crawler.VisitStep` | crawler.js:67-97 | the same step, over the loop's own updates (the page is appended only when its fetch succeeded) |
| `Crawler.SeedFetchedFirst` | crawler.js:66-71 | when the loop stops, a non-empty seed has been fetched, and before every other URL |
| `Crawler.LoopExitFacts` | crawler.js:66-98 | when the loop stops, the queue is empty (the budget bound leaves nothing queued once the pages fill it), and everything `Crawler.CrawlSite` promises holds of the logs |
| `Crawler.CrawlSite` | crawler.js:58-102 | terminates; at most `maxPages` pages; `pages` and `errors` are the outcomes of the fetched URLs in fetch order; the queue ends empty, every enqueued entry having been dequeued; fetched URLs are the non-empty, first-seen dequeued entries (FIFO, each once), the seed first; every pushed URL is on the seed's origin and lies within its page's offer; `maxPages = 1` fetches only the seed; a failed seed gives no pages and one error entry |
| `Score.Penalty` | main.js:24-27 | each issue costs between 5 and 30 points |
| `Score.TotalPenalty` | main.js:22-28 | the total penalty is between 5 and 30 points per issue |
| `Score.ScoreOf` | main.js:29 | the score lies in [0, 100]; it is 100 minus the total penalty while that is at most 100, and 0 beyond |
| `Score.CalcScore` | main.js:20-30 | the loop's result lies in [0, 100], is 100 for a missing or empty list, and is the score of the list |
| `Score.TotalPenaltyByCounts` | main.js:22-28 | the total penalty is 30 per HIGH, 20 per MEDIUM, 10 per LOW and 5 per other issue |
| `Score.TotalPenaltyAppend` | main.js:23-28 | penalties add up over concatenated issue lists |
| `Score.ScoreNeverIncreases` | main.js:23-29 | adding issues never raises the score, and lowers it by at least 5 per issue while the total stays within 100 |
| `Score.ClassOf` | main.js:35-37 | the class is bad exactly below 40, medium exactly in [40, 70), good exactly from 70 |
| `Score.ClassNeverImproves` | main.js:34-37 | adding issues never gives a card a better class |
| `Server.RequestedUrl` | server.js:27-30 | the url is accepted exactly when it is a non-empty string; otherwise the answer is status 400 |
| `Server.CrawlLimit` | server.js:31 | the limit lies in [1, 20]; missing, zero or non-numeric gives 5; negative or below 1 gives 1; above 20 gives 20; a value in [1, 20] passes through |
| `Server.PageBudget` | server.js:31-34 | the integer budget is at least 1; it is the smallest integer not below the limit, and equals the limit when that is an integer |
| `Server.BudgetMatchesLimit` | server.js:31-34 | an integer count is below the limit exactly when it is below the budget, so the crawl sees the same bound |
| `Server.ReportPage` | server.js:36-42 | a page's report carries the page's final URL |
| `Server.PerPageReports` | server.js:36-42 | one report per crawled page, in crawl order |
| `Server.TotalBytes` | server.js:47 | the byte total is 0 exactly when every page has size 0, and is the page's size for a single page |
| `Server.TotalResponseMs` | server.js:49 | the time total is non-negative when every page's time is, and is the page's time for a single page |
| `Server.TotalBytesAppend` | server.js:47 | the byte total adds up over concatenated page lists |
| `Server.TotalBytesCountsEachPage` | server.js:47 | the byte total is at least each page's size |
| `Server.RoundedAverage` | server.js:48-51 | the result is the nearest integer to the total over `max(1, n)` pages, halves rounded up, and is the total itself for zero or one page |
| `Server.Summarize` | server.js:45-52 | `pagesScanned` is the number of reports, `totalBytes` the byte total of the pages and `averageResponseMs` the rounded average of their response times; zero pages give 0 and 0, one page gives its own size and time |
| `Server.Audit` | server.js:26-61 | a bad url gives status 400 and runs no crawl; otherwise the handler runs a crawl from the url with budget `PageBudget(limit)` ≤ 20 for the clamped limit, and that crawl meets all of `Crawler.CrawlSite`'s postconditions (the url fetched first, and alone when the budget is 1); the response carries the url, the limit, that crawl's timestamps, one report per crawled page, the summary of those pages and reports, and that crawl's errors |

## Left out

- The HTTP transport (axios, its 15000 ms timeout, its 5-redirect limit and its user-agent) is an oracle `Transport` outcome per URL; the constants have no behaviour to model.
- HTML parsing (cheerio) is an oracle from HTML text to the `href`s of `a[href]` in document order, or the message of what it threw; a throw adds nothing to the queue.
- WHATWG URL resolution, parsing, serialization and origin computation are oracles and a URL record; only the scheme filter and the fragment removal are concrete.
- Clocks: the ISO timestamps of a run and each fetch's elapsed time are inputs; the byte length of a body (`Buffer.from(...).length`), or the error that call throws, is an input.
- Which statuses the transport resolves with (2xx under its default status check) and how it parses a body (a string or a JSON value) belong to the transport oracle; only their consequences in `fetchPage` are modelled.
- Fetch.ToLower: lower-cases ASCII letters only, where `toLowerCase` maps all of Unicode; HTTP header names are ASCII tokens.
- Fetch.LowerHeaders: header values are strings (array-valued headers are not modelled) and the order of object keys is not kept.
- Server.CrawlLimit: takes the number `Number(maxPages)` produced; the conversion of strings, booleans and `null` to a number is not modelled.
- Server.RoundedAverage: exact rational rounding; the floating-point division before `Math.round` is not modelled.
- `p.sizeBytes || 0` and `p.timing?.responseMs || 0`: every modelled page has both fields, so the `|| 0` fallback never applies.
- The 500 branch of the handler: the modelled crawl and analyzers always return, so it cannot be reached.
- `crawlSite`'s default `maxPages = 5` when no option is given: the handler always passes a limit.
- Crawler.CrawlSite: states each page's pushes as a prefix of the links it offered rather than the exact cut-off; the exact cut-off is the postcondition of Crawler.VisitPage and Crawler.ExpandLinks.
- Crawler.CrawlSite: breadth-first order is stated as FIFO order of the queue (with Crawler.AdmittedFifo), not as levels of a link graph.
- The analyzers are oracles; the Express plumbing, static files, `/health`, `dotenv`, JSON response writing and all browser UI in main.js (DOM building, rendering, the form handler, KB display rounding) are not part of this model.
- Concurrency: the crawl loop is sequential (one `await` at a time), so `async` is not modelled.
