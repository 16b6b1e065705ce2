/** The crawl engine (`crawlSite` in crawler.js): a bounded breadth-first
    traversal of the pages on the seed URL's origin.

    The collaborators the engine calls are oracles collected in `Env`: URL
    resolution and parsing (the WHATWG `URL` class), the HTTP transport, and
    the HTML parser's link extraction. The loop state (queue, visited set,
    pages, errors) is the method's own, as in the source; ghost logs record
    what was dequeued, fetched and enqueued so that the postconditions can
    describe the traversal. */
module Crawler {
  import opened Wrappers
  import opened Url
  import opened Fetch

  datatype Env = Env(
    /** `new URL(href, base)` */
    resolve: Resolver,
    /** `new URL(s)`: `None` when it throws */
    parse: string -> Option<UrlRecord>,
    /** what `axios.get(url)` does */
    transport: string -> Transport,
    /** the `href` of every `a[href]` of an HTML text in document order, or
        the message of what the HTML parser threw */
    links: string -> Result<seq<string>, string>)

  /** An entry of the `errors` list: a failed fetch, or a page whose link
      extraction threw (the page itself stays in `pages`). */
  datatype CrawlError =
    | FetchFailure(url: string, error: Option<string>, status: Option<int>)
    | LinkFailure(url: string, message: string)

  datatype CrawlReport = CrawlReport(
    startedAt: string,
    finishedAt: string,
    pages: seq<FetchResult>,
    errors: seq<CrawlError>)

  /** Stands for the message of the `TypeError` that `new URL(startUrl)`
      throws on an invalid URL. Current Node.js releases use exactly this
      text; older ones append the input, which the model does not track. */
  const InvalidUrlMessage := "Invalid URL"

  // ---------------------------------------------------------------------
  // Sequences
  // ---------------------------------------------------------------------

  predicate Distinct<T(==)>(s: seq<T>)
  {
    forall i, j :: 0 <= i < j < |s| ==> s[i] != s[j]
  }

  function Elems<T>(s: seq<T>): set<T>
  {
    set x | x in s
  }

  /** The first `n` elements of `s` (all of them when there are fewer). */
  function Take<T>(s: seq<T>, n: int): (r: seq<T>)
    ensures r <= s
    ensures |r| == if n <= 0 then 0 else if n < |s| then n else |s|
  {
    if n <= 0 then [] else if n < |s| then s[..n] else s
  }

  lemma TakeSnoc<T>(s: seq<T>, x: T, n: int)
    ensures Take(s + [x], n) == if |s| < n then s + [x] else Take(s, n)
  {
    if 0 < n <= |s| {
      assert (s + [x])[..n] == s[..n];
    }
  }

  function Flatten<T>(ss: seq<seq<T>>): seq<T>
    decreases |ss|
  {
    if ss == [] then [] else Flatten(ss[..|ss| - 1]) + ss[|ss| - 1]
  }

  lemma FlattenSnoc<T>(ss: seq<seq<T>>, s: seq<T>)
    ensures Flatten(ss + [s]) == Flatten(ss) + s
  {
    assert (ss + [s])[..|ss|] == ss;
  }

  // ---------------------------------------------------------------------
  // The dequeue filter: which dequeued URLs are fetched
  // ---------------------------------------------------------------------

  /** The URLs fetched when the queue hands out `s` in this order: an empty
      URL, or one already visited, is skipped (crawler.js:68). */
  function Admitted(s: seq<string>): seq<string>
    decreases |s|
  {
    if s == [] then []
    else
      var prev := Admitted(s[..|s| - 1]);
      var u := s[|s| - 1];
      if u == "" || u in prev then prev else prev + [u]
  }

  lemma AdmittedSnoc(s: seq<string>, u: string)
    ensures Admitted(s + [u]) == if u == "" || u in Admitted(s) then Admitted(s) else Admitted(s) + [u]
  {
    assert (s + [u])[..|s|] == s;
  }

  /** Every URL is fetched at most once; exactly the non-empty dequeued URLs
      are fetched. */
  lemma {:induction false} AdmittedFetchesEachOnce(s: seq<string>)
    ensures Distinct(Admitted(s))
    ensures forall u :: u in Admitted(s) <==> u in s && u != ""
    decreases |s|
  {
    if s != [] {
      var init := s[..|s| - 1];
      AdmittedFetchesEachOnce(init);
      assert s == init + [s[|s| - 1]];
      AdmittedSnoc(init, s[|s| - 1]);
    }
  }

  /** What is fetched from a prefix of the dequeue order comes first. */
  lemma {:induction false} AdmittedPrefix(s: seq<string>, n: nat)
    requires n <= |s|
    ensures Admitted(s[..n]) <= Admitted(s)
    decreases |s| - n
  {
    if n < |s| {
      AdmittedPrefix(s[..|s| - 1], n);
      assert s[..|s| - 1][..n] == s[..n];
      assert s == s[..|s| - 1] + [s[|s| - 1]];
      AdmittedSnoc(s[..|s| - 1], s[|s| - 1]);
    } else {
      assert s[..n] == s;
    }
  }

  /** FIFO order: a URL dequeued before the first time `y` is dequeued is
      fetched before `y`. */
  lemma AdmittedFifo(s: seq<string>, n: nat, x: string, y: string)
    requires n <= |s| && x in s[..n] && x != ""
    requires y in Admitted(s) && y !in s[..n]
    ensures x in Admitted(s)
    ensures forall i, j :: 0 <= i < |Admitted(s)| && 0 <= j < |Admitted(s)| && Admitted(s)[i] == x && Admitted(s)[j] == y ==> i < j
  {
    var a, p := Admitted(s), Admitted(s[..n]);
    AdmittedPrefix(s, n);
    AdmittedFetchesEachOnce(s);
    AdmittedFetchesEachOnce(s[..n]);
    var i' :| 0 <= i' < |p| && p[i'] == x;
    assert a[i'] == x;
    forall i, j | 0 <= i < |a| && 0 <= j < |a| && a[i] == x && a[j] == y ensures i < j {
      assert i == i';
    }
  }

  // ---------------------------------------------------------------------
  // Link expansion (crawler.js:79-94)
  // ---------------------------------------------------------------------

  /** A normalized link passes the origin and visited tests of crawler.js:87-88. */
  predicate Admissible(env: Env, origin: string, visited: set<string>, absolute: string)
  {
    && env.parse(absolute).Some?
    && env.parse(absolute).value.origin == origin
    && absolute !in visited
  }

  /** The links of a page that the expansion would enqueue with room to
      spare, in document order (duplicates kept: `visited` does not change
      while a page's links are expanded). */
  function Candidates(env: Env, origin: string, finalUrl: string, visited: set<string>, hrefs: seq<string>): (r: seq<string>)
    ensures |r| <= |hrefs|
    ensures forall c :: c in r ==> c != "" && Admissible(env, origin, visited, c)
    decreases |hrefs|
  {
    if hrefs == [] then []
    else
      var prev := Candidates(env, origin, finalUrl, visited, hrefs[..|hrefs| - 1]);
      match NormalizeUrl(env.resolve, finalUrl, Some(hrefs[|hrefs| - 1]))
      case None => prev
      case Some(absolute) =>
        if Admissible(env, origin, visited, absolute) then prev + [absolute] else prev
  }

  /** Two spellings of one same-origin link on a page are both enqueued:
      the queue can hold duplicates, which the dequeue filter drops later. */
  lemma CandidatesKeepDuplicates(env: Env, origin: string, finalUrl: string, visited: set<string>, h1: string, h2: string)
    requires NormalizeUrl(env.resolve, finalUrl, Some(h1)).Some?
    requires NormalizeUrl(env.resolve, finalUrl, Some(h2)) == NormalizeUrl(env.resolve, finalUrl, Some(h1))
    requires Admissible(env, origin, visited, NormalizeUrl(env.resolve, finalUrl, Some(h1)).value)
    ensures
      var a := NormalizeUrl(env.resolve, finalUrl, Some(h1)).value;
      Candidates(env, origin, finalUrl, visited, [h1, h2]) == [a, a]
  {
    assert [h1, h2][..1] == [h1];
    assert [h1][..0] == [];
  }

  /** One more href adds its normalized form when that is admissible. */
  lemma CandidatesSnoc(env: Env, origin: string, finalUrl: string, visited: set<string>, hrefs: seq<string>, i: nat)
    requires i < |hrefs|
    ensures
      var a := NormalizeUrl(env.resolve, finalUrl, Some(hrefs[i]));
      Candidates(env, origin, finalUrl, visited, hrefs[..i + 1]) ==
        if a.Some? && Admissible(env, origin, visited, a.value)
        then Candidates(env, origin, finalUrl, visited, hrefs[..i]) + [a.value]
        else Candidates(env, origin, finalUrl, visited, hrefs[..i])
  {
    assert hrefs[..i + 1][..i] == hrefs[..i];
  }

  /** The `$('a[href]').each(...)` pass: `queue` grows by the admissible
      links in document order while `queue.length + pages.length < maxPages`. */
  method ExpandLinks(env: Env, origin: string, finalUrl: string, visited: set<string>, hrefs: seq<string>,
                     queue: seq<string>, pageCount: nat, maxPages: int)
    returns (grown: seq<string>)
    ensures grown == queue + Take(Candidates(env, origin, finalUrl, visited, hrefs), maxPages - pageCount - |queue|)
  {
    ghost var room := maxPages - pageCount - |queue|;
    ghost var taken: seq<string> := [];
    grown := queue;
    var i := 0;
    while i < |hrefs|
      invariant 0 <= i <= |hrefs|
      invariant taken == Take(Candidates(env, origin, finalUrl, visited, hrefs[..i]), room)
      invariant grown == queue + taken
    {
      ghost var before := Candidates(env, origin, finalUrl, visited, hrefs[..i]);
      CandidatesSnoc(env, origin, finalUrl, visited, hrefs, i);
      var absolute := NormalizeUrl(env.resolve, finalUrl, Some(hrefs[i]));
      if absolute.Some? {
        var u := env.parse(absolute.value);
        if u.Some? && u.value.origin == origin && absolute.value !in visited {
          TakeSnoc(before, absolute.value, room);
          if |grown| + pageCount < maxPages {
            assert |before| < room;
            grown := grown + [absolute.value];
            taken := taken + [absolute.value];
          }
        }
      }
      i := i + 1;
    }
    assert hrefs[..i] == hrefs;
  }

  // ---------------------------------------------------------------------
  // What one fetched URL contributes
  // ---------------------------------------------------------------------

  /** `fetchPage(url)`. */
  function Attempt(env: Env, url: string): FetchResult
  {
    FetchPage(url, env.transport(url))
  }

  /** The seed's origin and the page's hrefs, or the message of what threw
      first: `new URL(startUrl)`, then the HTML parser. */
  function Extraction(env: Env, startUrl: string, page: FetchResult): Result<(string, seq<string>), string>
  {
    match env.parse(startUrl)
    case None => Err(InvalidUrlMessage)
    case Some(base) =>
      match env.links(page.html)
      case Err(message) => Err(message)
      case Ok(hrefs) => Ok((base.origin, hrefs))
  }

  /** The error entries that fetching `url` adds. */
  function AttemptErrors(env: Env, startUrl: string, url: string): (r: seq<CrawlError>)
    ensures |r| <= 1 && forall e :: e in r ==> e.url == url
    ensures r == [] <==> Attempt(env, url).ok && Extraction(env, startUrl, Attempt(env, url)).Ok?
    ensures !Attempt(env, url).ok ==>
      r == [FetchFailure(url, Attempt(env, url).error, Attempt(env, url).status)] && r[0].error.Some?
    ensures Attempt(env, url).ok && Extraction(env, startUrl, Attempt(env, url)).Err? ==>
      r == [LinkFailure(url, Extraction(env, startUrl, Attempt(env, url)).error)]
  {
    var page := Attempt(env, url);
    if !page.ok then [FetchFailure(url, page.error, page.status)]
    else match Extraction(env, startUrl, page)
      case Err(message) => [LinkFailure(url, message)]
      case Ok(_) => []
  }

  /** The links that fetching `url` offers for the queue, in document
      order, when `visited` is the visited set at that time: none when the
      fetch failed or link extraction threw. */
  function Offer(env: Env, startUrl: string, url: string, visited: set<string>): (r: seq<string>)
    ensures forall u :: u in r ==> u != "" && u !in visited && SameOrigin(env, startUrl, u)
    ensures !Attempt(env, url).ok ==> r == []
  {
    var page := Attempt(env, url);
    if !page.ok then []
    else match Extraction(env, startUrl, page)
      case Err(_) => []
      case Ok((origin, hrefs)) => Candidates(env, origin, page.finalUrl, visited, hrefs)
  }

  /** The `pages` list after fetching `urls` in order. */
  function OkPages(env: Env, urls: seq<string>): seq<FetchResult>
    decreases |urls|
  {
    if urls == [] then []
    else
      var page := Attempt(env, urls[|urls| - 1]);
      OkPages(env, urls[..|urls| - 1]) + if page.ok then [page] else []
  }

  /** The `errors` list after fetching `urls` in order. */
  function ErrorsOf(env: Env, startUrl: string, urls: seq<string>): seq<CrawlError>
    decreases |urls|
  {
    if urls == [] then []
    else ErrorsOf(env, startUrl, urls[..|urls| - 1]) + AttemptErrors(env, startUrl, urls[|urls| - 1])
  }

  lemma OutcomesSnoc(env: Env, startUrl: string, urls: seq<string>, u: string)
    ensures OkPages(env, urls + [u]) == OkPages(env, urls) + if Attempt(env, u).ok then [Attempt(env, u)] else []
    ensures ErrorsOf(env, startUrl, urls + [u]) == ErrorsOf(env, startUrl, urls) + AttemptErrors(env, startUrl, u)
  {
    assert (urls + [u])[..|urls|] == urls;
  }

  /** Every page in `pages` comes from a successful fetch. */
  lemma {:induction false} OkPagesAreOk(env: Env, urls: seq<string>)
    ensures |OkPages(env, urls)| <= |urls|
    ensures forall p :: p in OkPages(env, urls) ==> p.ok && p.error == None
    decreases |urls|
  {
    if urls != [] {
      OkPagesAreOk(env, urls[..|urls| - 1]);
    }
  }

  /** The order in which URLs enter the queue: the seed, then what each
      fetched page pushed. */
  function Enqueued(startUrl: string, pushedBy: seq<seq<string>>): seq<string>
  {
    [startUrl] + Flatten(pushedBy)
  }

  lemma EnqueuedSnoc(startUrl: string, pushedBy: seq<seq<string>>, pushed: seq<string>)
    ensures Enqueued(startUrl, pushedBy + [pushed]) == Enqueued(startUrl, pushedBy) + pushed
  {
    FlattenSnoc(pushedBy, pushed);
  }

  predicate SameOrigin(env: Env, startUrl: string, u: string)
  {
    && env.parse(startUrl).Some?
    && env.parse(u).Some?
    && env.parse(u).value.origin == env.parse(startUrl).value.origin
  }

  /** `offer(u, visited)` is what fetching `u` offers for the queue when the
      visited set is `visited`; each fetched page pushed a prefix of its
      offer, the visited set then being the URLs fetched up to and
      including it. */
  ghost predicate WithinOffers(offer: (string, set<string>) -> seq<string>, fetched: seq<string>, pushedBy: seq<seq<string>>)
    decreases |fetched|
  {
    && |pushedBy| == |fetched|
    && (fetched != [] ==>
          var n := |fetched| - 1;
          && WithinOffers(offer, fetched[..n], pushedBy[..n])
          && pushedBy[n] <= offer(fetched[n], Elems(fetched)))
  }

  lemma WithinOffersSnoc(offer: (string, set<string>) -> seq<string>, fetched: seq<string>, pushedBy: seq<seq<string>>,
                         url: string, pushed: seq<string>)
    requires WithinOffers(offer, fetched, pushedBy)
    requires pushed <= offer(url, Elems(fetched + [url]))
    ensures WithinOffers(offer, fetched + [url], pushedBy + [pushed])
  {
    assert (fetched + [url])[..|fetched|] == fetched;
    assert (pushedBy + [pushed])[..|pushedBy|] == pushedBy;
  }

  lemma {:induction false} WithinOffersAt(offer: (string, set<string>) -> seq<string>, fetched: seq<string>,
                                          pushedBy: seq<seq<string>>, k: nat)
    requires WithinOffers(offer, fetched, pushedBy) && k < |fetched|
    ensures pushedBy[k] <= offer(fetched[k], Elems(fetched[..k + 1]))
    decreases |fetched|
  {
    var n := |fetched| - 1;
    if k < n {
      WithinOffersAt(offer, fetched[..n], pushedBy[..n], k);
      assert fetched[..n][..k + 1] == fetched[..k + 1];
    } else {
      assert fetched[..k + 1] == fetched;
    }
  }

  /** `Offer` for a fixed environment and seed. */
  function OfferOf(env: Env, startUrl: string): (string, set<string>) -> seq<string>
  {
    (u, visited) => Offer(env, startUrl, u, visited)
  }

  ghost predicate PushedWithin(env: Env, startUrl: string, fetched: seq<string>, pushedBy: seq<seq<string>>)
  {
    WithinOffers(OfferOf(env, startUrl), fetched, pushedBy)
  }

  lemma PushedWithinSnoc(env: Env, startUrl: string, fetched: seq<string>, pushedBy: seq<seq<string>>, url: string, pushed: seq<string>)
    requires PushedWithin(env, startUrl, fetched, pushedBy)
    requires pushed <= Offer(env, startUrl, url, Elems(fetched + [url]))
    ensures PushedWithin(env, startUrl, fetched + [url], pushedBy + [pushed])
  {
    WithinOffersSnoc(OfferOf(env, startUrl), fetched, pushedBy, url, pushed);
  }

  /** The k-th fetched page pushed a prefix of the links it offered. */
  lemma PushedWithinAt(env: Env, startUrl: string, fetched: seq<string>, pushedBy: seq<seq<string>>, k: nat)
    requires PushedWithin(env, startUrl, fetched, pushedBy) && k < |fetched|
    ensures pushedBy[k] <= Offer(env, startUrl, fetched[k], Elems(fetched[..k + 1]))
  {
    WithinOffersAt(OfferOf(env, startUrl), fetched, pushedBy, k);
  }

  /** Every URL pushed onto the queue is on the seed's origin. */
  ghost predicate AllSameOrigin(env: Env, startUrl: string, pushedBy: seq<seq<string>>)
  {
    forall u :: u in Flatten(pushedBy) ==> SameOrigin(env, startUrl, u)
  }

  /** What the pages pushed stays within what they offered, so every URL
      pushed is on the seed's origin. */
  lemma {:induction false} PushedSameOrigin(env: Env, startUrl: string, fetched: seq<string>, pushedBy: seq<seq<string>>)
    requires PushedWithin(env, startUrl, fetched, pushedBy)
    ensures AllSameOrigin(env, startUrl, pushedBy)
    decreases |pushedBy|
  {
    if pushedBy != [] {
      var n := |pushedBy| - 1;
      PushedSameOrigin(env, startUrl, fetched[..n], pushedBy[..n]);
      assert pushedBy == pushedBy[..n] + [pushedBy[n]];
      FlattenSnoc(pushedBy[..n], pushedBy[n]);
    }
  }

  /** One visit of a dequeued, not yet visited `url` (already added to
      `visited`): fetch it, record a failure, or keep the page and push its
      same-origin links while `queue.length + pages.length < maxPages`, the
      page itself counting among `pageCount + 1` pages. */
  method VisitPage(env: Env, startUrl: string, url: string, visited: set<string>,
                   queue: seq<string>, pageCount: nat, maxPages: int)
    returns (page: FetchResult, newErrors: seq<CrawlError>, pushed: seq<string>)
    ensures page == Attempt(env, url)
    ensures newErrors == AttemptErrors(env, startUrl, url)
    ensures pushed == Take(Offer(env, startUrl, url, visited), maxPages - (pageCount + 1) - |queue|)
  {
    page := FetchPage(url, env.transport(url));
    newErrors, pushed := [], [];
    if !page.ok {
      newErrors := [FetchFailure(url, page.error, page.status)];
      return;
    }
    var base := env.parse(startUrl);
    if base.None? {
      newErrors := [LinkFailure(url, InvalidUrlMessage)];
      return;
    }
    match env.links(page.html)
    case Err(message) =>
      newErrors := [LinkFailure(url, message)];
    case Ok(hrefs) =>
      var grown := ExpandLinks(env, base.value.origin, page.finalUrl, visited, hrefs, queue, pageCount + 1, maxPages);
      pushed := grown[|queue|..];
  }

  // ---------------------------------------------------------------------
  // The traversal loop (crawler.js:58-102)
  // ---------------------------------------------------------------------

  /** The seed is a non-empty URL whose fetch fails. */
  predicate SeedFails(env: Env, startUrl: string)
  {
    startUrl != "" && !Attempt(env, startUrl).ok
  }

  /** The state of the traversal loop at its head (crawler.js:66), against
      the ghost logs. */
  ghost predicate CrawlInv(env: Env, startUrl: string, maxPages: int,
                           queue: seq<string>, visited: set<string>, pages: seq<FetchResult>, errors: seq<CrawlError>,
                           dequeued: seq<string>, fetched: seq<string>, pushedBy: seq<seq<string>>)
  {
    && Enqueued(startUrl, pushedBy) == dequeued + queue
    && fetched == Admitted(dequeued)
    && visited == Elems(fetched)
    && pages == OkPages(env, fetched)
    && errors == ErrorsOf(env, startUrl, fetched)
    && |queue| + |pages| <= maxPages
    && PushedWithin(env, startUrl, fetched, pushedBy)
    && (maxPages == 1 || SeedFails(env, startUrl) ==> Flatten(pushedBy) == [])
  }

  /** The queue and dequeue log when an empty or already fetched entry is
      dropped: the fetched URLs stay as they are. */
  lemma SkipKeepsOrder(startUrl: string, pushedBy: seq<seq<string>>, queue: seq<string>,
                       dequeued: seq<string>, fetched: seq<string>)
    requires Enqueued(startUrl, pushedBy) == dequeued + queue && fetched == Admitted(dequeued)
    requires queue != [] && (queue[0] == "" || queue[0] in fetched)
    ensures Enqueued(startUrl, pushedBy) == (dequeued + [queue[0]]) + queue[1..]
    ensures fetched == Admitted(dequeued + [queue[0]])
  {
    assert queue == [queue[0]] + queue[1..];
    AdmittedSnoc(dequeued, queue[0]);
    assert dequeued + queue == (dequeued + [queue[0]]) + queue[1..];
  }

  /** Dropping an empty or already visited entry at the head of the queue
      (crawler.js:67-68) keeps the invariant. */
  lemma SkipKeepsInv(env: Env, startUrl: string, maxPages: int,
                     queue: seq<string>, visited: set<string>, pages: seq<FetchResult>, errors: seq<CrawlError>,
                     dequeued: seq<string>, fetched: seq<string>, pushedBy: seq<seq<string>>)
    requires CrawlInv(env, startUrl, maxPages, queue, visited, pages, errors, dequeued, fetched, pushedBy)
    requires queue != [] && (queue[0] == "" || queue[0] in visited)
    ensures CrawlInv(env, startUrl, maxPages, queue[1..], visited, pages, errors, dequeued + [queue[0]], fetched, pushedBy)
  {
    assert queue[0] in visited ==> queue[0] in fetched;
    SkipKeepsOrder(startUrl, pushedBy, queue, dequeued, fetched);
  }

  /** The queue part of a visit: the entry leaves the queue, what the page
      pushed joins it, and the bound still holds. */
  lemma VisitKeepsQueue(startUrl: string, maxPages: int, queue: seq<string>, pageCount: nat, okPage: bool,
                        dequeued: seq<string>, pushedBy: seq<seq<string>>, pushed: seq<string>, closed: bool)
    requires Enqueued(startUrl, pushedBy) == dequeued + queue
    requires |queue| + pageCount <= maxPages
    requires queue != [] && pageCount < maxPages
    requires |pushed| <= if okPage then maxPages - (pageCount + 1) - (|queue| - 1) else 0
    requires closed ==> Flatten(pushedBy) == [] && pushed == []
    ensures Enqueued(startUrl, pushedBy + [pushed]) == (dequeued + [queue[0]]) + (queue[1..] + pushed)
    ensures |queue[1..] + pushed| + pageCount + (if okPage then 1 else 0) <= maxPages
    ensures closed ==> Flatten(pushedBy + [pushed]) == []
  {
    assert queue == [queue[0]] + queue[1..];
    EnqueuedSnoc(startUrl, pushedBy, pushed);
    FlattenSnoc(pushedBy, pushed);
    assert (dequeued + queue) + pushed == (dequeued + [queue[0]]) + (queue[1..] + pushed);
  }

  /** The log part of a visit: `url` joins the fetched and visited URLs, its
      outcome joins `pages` and `errors`, and what it pushed stays within
      its offer. */
  lemma VisitKeepsLogs(env: Env, startUrl: string, visited: set<string>, pages: seq<FetchResult>, errors: seq<CrawlError>,
                       dequeued: seq<string>, fetched: seq<string>, pushedBy: seq<seq<string>>, url: string, pushed: seq<string>)
    requires fetched == Admitted(dequeued) && visited == Elems(fetched)
    requires pages == OkPages(env, fetched) && errors == ErrorsOf(env, startUrl, fetched)
    requires PushedWithin(env, startUrl, fetched, pushedBy)
    requires url != "" && url !in visited
    requires pushed <= Offer(env, startUrl, url, visited + {url})
    ensures fetched + [url] == Admitted(dequeued + [url])
    ensures visited + {url} == Elems(fetched + [url])
    ensures pages + (if Attempt(env, url).ok then [Attempt(env, url)] else []) == OkPages(env, fetched + [url])
    ensures errors + AttemptErrors(env, startUrl, url) == ErrorsOf(env, startUrl, fetched + [url])
    ensures PushedWithin(env, startUrl, fetched + [url], pushedBy + [pushed])
  {
    AdmittedSnoc(dequeued, url);
    OutcomesSnoc(env, startUrl, fetched, url);
    assert Elems(fetched + [url]) == visited + {url};
    PushedWithinSnoc(env, startUrl, fetched, pushedBy, url, pushed);
  }

  /** Visiting the URL at the head of the queue (crawler.js:67-97) keeps the
      invariant, whatever the fetch and the link extraction give. */
  lemma VisitKeepsInv(env: Env, startUrl: string, maxPages: int,
                      queue: seq<string>, visited: set<string>, pages: seq<FetchResult>, errors: seq<CrawlError>,
                      dequeued: seq<string>, fetched: seq<string>, pushedBy: seq<seq<string>>)
    requires CrawlInv(env, startUrl, maxPages, queue, visited, pages, errors, dequeued, fetched, pushedBy)
    requires queue != [] && queue[0] != "" && queue[0] !in visited && |pages| < maxPages
    ensures
      var url := queue[0];
      var page := Attempt(env, url);
      var pushed := Take(Offer(env, startUrl, url, visited + {url}), maxPages - (|pages| + 1) - (|queue| - 1));
      CrawlInv(env, startUrl, maxPages,
               queue[1..] + pushed, visited + {url}, pages + (if page.ok then [page] else []),
               errors + AttemptErrors(env, startUrl, url),
               dequeued + [url], fetched + [url], pushedBy + [pushed])
  {
    var url := queue[0];
    var page := Attempt(env, url);
    var pushed := Take(Offer(env, startUrl, url, visited + {url}), maxPages - (|pages| + 1) - (|queue| - 1));
    var closed := maxPages == 1 || SeedFails(env, startUrl);
    if closed {
      // only the seed was ever enqueued, so it is the URL being visited
      assert Enqueued(startUrl, pushedBy) == [startUrl];
      assert |dequeued| + |queue| == 1;
      assert dequeued == [];
      assert queue == dequeued + queue == [startUrl];
    }
    VisitKeepsQueue(startUrl, maxPages, queue, |pages|, page.ok, dequeued, pushedBy, pushed, closed);
    VisitKeepsLogs(env, startUrl, visited, pages, errors, dequeued, fetched, pushedBy, url, pushed);
  }

  /** The same step, stated over the loop's own updates: the page is
      appended only when its fetch succeeded. */
  lemma VisitStep(env: Env, startUrl: string, maxPages: int,
                  queue: seq<string>, visited: set<string>, pages: seq<FetchResult>, errors: seq<CrawlError>,
                  dequeued: seq<string>, fetched: seq<string>, pushedBy: seq<seq<string>>,
                  page: FetchResult, pushed: seq<string>, pages': seq<FetchResult>)
    requires CrawlInv(env, startUrl, maxPages, queue, visited, pages, errors, dequeued, fetched, pushedBy)
    requires queue != [] && queue[0] != "" && queue[0] !in visited && |pages| < maxPages
    requires page == Attempt(env, queue[0])
    requires pushed == Take(Offer(env, startUrl, queue[0], visited + {queue[0]}), maxPages - (|pages| + 1) - (|queue| - 1))
    requires pages' == if page.ok then pages + [page] else pages
    ensures CrawlInv(env, startUrl, maxPages, queue[1..] + pushed, visited + {queue[0]}, pages',
                     errors + AttemptErrors(env, startUrl, queue[0]),
                     dequeued + [queue[0]], fetched + [queue[0]], pushedBy + [pushed])
  {
    VisitKeepsInv(env, startUrl, maxPages, queue, visited, pages, errors, dequeued, fetched, pushedBy);
    assert pages' == pages + (if page.ok then [page] else []);
  }

  /** What a finished crawl from `startUrl` with budget `maxPages` has
      done, against the ghost logs of its traversal. */
  ghost predicate Crawled(env: Env, startUrl: string, maxPages: int, pages: seq<FetchResult>, errors: seq<CrawlError>,
                          dequeued: seq<string>, fetched: seq<string>, pushedBy: seq<seq<string>>)
  {
    // the page bound
    && |pages| <= maxPages
    // pages and errors, in fetch order
    && pages == OkPages(env, fetched)
    && errors == ErrorsOf(env, startUrl, fetched)
    // the run ends with an empty queue: every entry enqueued was dequeued, since
    // nothing is pushed once queue and pages together fill the budget
    && dequeued == Enqueued(startUrl, pushedBy)
    // FIFO: the fetched URLs are the dequeued ones minus empty and repeated entries
    && fetched == Admitted(dequeued)
    && Distinct(fetched)
    // the seed is fetched first
    && (startUrl != "" ==> fetched != [] && fetched[0] == startUrl)
    // expansion: each fetched page pushes a prefix of its same-origin, unvisited links
    && PushedWithin(env, startUrl, fetched, pushedBy)
    && AllSameOrigin(env, startUrl, pushedBy)
    // with a budget of one page, nothing but the seed is ever enqueued
    && (maxPages == 1 ==> Enqueued(startUrl, pushedBy) == [startUrl] && fetched <= [startUrl])
    // a seed whose fetch fails ends the run with no page and its one failure record
    && (SeedFails(env, startUrl) ==>
          && pages == []
          && errors == [FetchFailure(startUrl, Attempt(env, startUrl).error, Attempt(env, startUrl).status)])
  }

  /** When the loop stops, a non-empty seed has been fetched, and first. */
  lemma SeedFetchedFirst(env: Env, startUrl: string, maxPages: int,
                         queue: seq<string>, visited: set<string>, pages: seq<FetchResult>, errors: seq<CrawlError>,
                         dequeued: seq<string>, fetched: seq<string>, pushedBy: seq<seq<string>>)
    requires CrawlInv(env, startUrl, maxPages, queue, visited, pages, errors, dequeued, fetched, pushedBy)
    requires maxPages >= 1 && (queue == [] || |pages| >= maxPages)
    ensures startUrl != "" ==> fetched != [] && fetched[0] == startUrl
  {
    if startUrl != "" {
      // the budget bound on queue and pages leaves nothing queued once the budget is spent
      assert queue == [];
      assert dequeued == Enqueued(startUrl, pushedBy);
      assert dequeued != [] && dequeued[0] == Enqueued(startUrl, pushedBy)[0] == startUrl;
      AdmittedPrefix(dequeued, 1);
      AdmittedSnoc([], startUrl);
      assert dequeued[..1] == [] + [startUrl];
    }
  }

  /** What holds when the loop stops: the queue is empty or the page
      budget is spent. */
  lemma LoopExitFacts(env: Env, startUrl: string, maxPages: int,
                      queue: seq<string>, visited: set<string>, pages: seq<FetchResult>, errors: seq<CrawlError>,
                      dequeued: seq<string>, fetched: seq<string>, pushedBy: seq<seq<string>>)
    requires CrawlInv(env, startUrl, maxPages, queue, visited, pages, errors, dequeued, fetched, pushedBy)
    requires maxPages >= 1 && (queue == [] || |pages| >= maxPages)
    ensures Crawled(env, startUrl, maxPages, pages, errors, dequeued, fetched, pushedBy)
  {
    assert queue == [];
    AdmittedFetchesEachOnce(dequeued);
    PushedSameOrigin(env, startUrl, fetched, pushedBy);
    SeedFetchedFirst(env, startUrl, maxPages, queue, visited, pages, errors, dequeued, fetched, pushedBy);
    if maxPages == 1 || SeedFails(env, startUrl) {
      assert Enqueued(startUrl, pushedBy) == [startUrl];
      assert dequeued == [] || dequeued == [startUrl];
      AdmittedSnoc([], startUrl);
      OutcomesSnoc(env, startUrl, [], startUrl);
      assert [] + [startUrl] == [startUrl];
    }
  }

  /** `crawlSite(startUrl, { maxPages })`. The timestamps are the clock's
      readings before and after the run. Ghost results: `dequeued`, the
      queue entries in the order `queue.shift()` handed them out; `fetched`,
      the URLs passed to `fetchPage`, in order; `pushedBy[k]`, what the k-th
      fetched page pushed onto the queue. */
  method CrawlSite(env: Env, startUrl: string, maxPages: int, startedAt: string, finishedAt: string)
    returns (report: CrawlReport, ghost dequeued: seq<string>, ghost fetched: seq<string>, ghost pushedBy: seq<seq<string>>)
    requires maxPages >= 1
    ensures report.startedAt == startedAt && report.finishedAt == finishedAt
    ensures Crawled(env, startUrl, maxPages, report.pages, report.errors, dequeued, fetched, pushedBy)
  {
    var queue := [startUrl];
    var visited: set<string> := {};
    var pages: seq<FetchResult> := [];
    var errors: seq<CrawlError> := [];
    dequeued, fetched, pushedBy := [], [], [];

    while |queue| > 0 && |pages| < maxPages
      invariant CrawlInv(env, startUrl, maxPages, queue, visited, pages, errors, dequeued, fetched, pushedBy)
      decreases maxPages - |pages|, |queue|
    {
      var url := queue[0];
      if url == "" || url in visited {
        SkipKeepsInv(env, startUrl, maxPages, queue, visited, pages, errors, dequeued, fetched, pushedBy);
        queue := queue[1..];
        dequeued := dequeued + [url];
        continue;
      }
      ghost var queue0, visited0, pages0, errors0, dequeued0 := queue, visited, pages, errors, dequeued;
      queue := queue[1..];
      dequeued := dequeued + [url];
      visited := visited + {url};
      var page, newErrors, pushed := VisitPage(env, startUrl, url, visited, queue, |pages|, maxPages);
      if page.ok {
        pages := pages + [page];
      }
      errors := errors + newErrors;
      queue := queue + pushed;
      VisitStep(env, startUrl, maxPages, queue0, visited0, pages0, errors0, dequeued0, fetched, pushedBy,
                page, pushed, pages);
      fetched := fetched + [url];
      pushedBy := pushedBy + [pushed];
    }

    LoopExitFacts(env, startUrl, maxPages, queue, visited, pages, errors, dequeued, fetched, pushedBy);
    report := CrawlReport(startedAt, finishedAt, pages, errors);
  }
}
