/** The URL normalizer of the crawl engine (`normalizeUrl` in crawler.js).

    Parsing and resolving a URL follows the WHATWG URL Standard (section 4.4,
    "URL parsing") and is done by a library; it is an oracle here that yields
    the parsed URL record, or `None` where the `URL` constructor throws. The
    scheme filter and the removal of the fragment are modelled concretely. */
module Url {
  import opened Wrappers

  /** The parts of a parsed URL that the crawl engine looks at: the scheme as
      `URL.protocol` reports it (with its trailing colon), the origin
      (section 4.7 of the WHATWG URL Standard, serialized), everything of the
      href between scheme and fragment, and the fragment (`None` when absent). */
  datatype UrlRecord = UrlRecord(scheme: string, origin: string, rest: string, fragment: Option<string>)

  /** `resolve(base, href)` is `new URL(href, base)`: the resolved record,
      or `None` when the constructor throws. */
  type Resolver = (string, string) -> Option<UrlRecord>

  /** `URL.prototype.toString()`, the href serialization. */
  function Href(u: UrlRecord): string
  {
    u.scheme + u.rest + match u.fragment { case Some(f) => "#" + f case None => "" }
  }

  /** The record after `url.hash = ''`. */
  function WithoutFragment(u: UrlRecord): (v: UrlRecord)
    ensures v.fragment == None
    ensures v.scheme == u.scheme && v.origin == u.origin && v.rest == u.rest
  {
    u.(fragment := None)
  }

  predicate IsWebScheme(scheme: string)
  {
    scheme == "http:" || scheme == "https:"
  }

  /** `normalizeUrl(baseUrl, href)`; `href` is `None` when it is missing. */
  function NormalizeUrl(resolve: Resolver, baseUrl: string, href: Option<string>): (r: Option<string>)
    ensures r.Some? <==>
      && href.Some? && href.value != ""
      && resolve(baseUrl, href.value).Some?
      && IsWebScheme(resolve(baseUrl, href.value).value.scheme)
    ensures r.Some? ==> r.value == Href(WithoutFragment(resolve(baseUrl, href.value).value))
  {
    match href
    case None => None
    case Some(h) =>
      if h == "" then None
      else
        match resolve(baseUrl, h)
        case None => None
        case Some(u) =>
          if !IsWebScheme(u.scheme) then None
          else Some(Href(WithoutFragment(u)))
  }

  /** A normalized URL is the scheme and the rest of the resolved URL, with
      no fragment, and it starts with `http:` or `https:`. */
  lemma NormalizedIsWebUrl(resolve: Resolver, baseUrl: string, href: string)
    requires NormalizeUrl(resolve, baseUrl, Some(href)).Some?
    ensures
      var r := NormalizeUrl(resolve, baseUrl, Some(href)).value;
      var u := resolve(baseUrl, href).value;
      && r == u.scheme + u.rest
      && (r[..5] == "http:" || r[..6] == "https:")
  {
  }

  /** Two hrefs that resolve to the same URL apart from the fragment
      normalize to the same string: the fragment is not part of the key
      under which the crawl engine deduplicates. */
  lemma NormalizeIgnoresFragment(resolve: Resolver, baseUrl: string, h1: string, h2: string)
    requires h1 != "" && h2 != ""
    requires resolve(baseUrl, h1).Some? && resolve(baseUrl, h2).Some?
    requires WithoutFragment(resolve(baseUrl, h1).value) == WithoutFragment(resolve(baseUrl, h2).value)
    ensures NormalizeUrl(resolve, baseUrl, Some(h1)) == NormalizeUrl(resolve, baseUrl, Some(h2))
  {
  }

  /** Normalizing a normalized URL again gives it back, provided the resolver
      maps the fragment-free href to the fragment-free record (as a
      conforming parser does for an absolute URL it serialized itself). */
  lemma NormalizeIdempotent(resolve: Resolver, baseUrl: string, href: string)
    requires NormalizeUrl(resolve, baseUrl, Some(href)).Some?
    requires
      var u := WithoutFragment(resolve(baseUrl, href).value);
      resolve(baseUrl, Href(u)) == Some(u)
    ensures
      var once := NormalizeUrl(resolve, baseUrl, Some(href));
      NormalizeUrl(resolve, baseUrl, once) == once
  {
  }
}
