/** The result-shaping part of the page fetcher (`fetchPage` in crawler.js).

    The HTTP transport (axios with its timeout, redirect limit and
    user-agent), the clock and the byte counting are outside the model: the
    transport's outcome arrives as a `Transport` value that already carries
    the elapsed time and the outcome of measuring the body's byte length. */
module Fetch {
  import opened Wrappers

  /** A header list as the transport reports it, in its own order. */
  type HeaderList = seq<(string, string)>

  /** Something thrown: its `message` property (empty when it has none)
      and its string form `String(error)`. */
  datatype Thrown = Thrown(message: string, asString: string)

  /** `error?.message || String(error)`. */
  function ErrorText(t: Thrown): (text: string)
    ensures t.message != "" ==> text == t.message
    ensures t.message == "" ==> text == t.asString
  {
    if t.message != "" then t.message else t.asString
  }

  /** A response the transport resolved with. With the transport's default
      status check only a 2xx answer resolves; any other status arrives as
      `Threw` with a partial response. `data` is the body when it is a
      string and `None` otherwise (a body parsed as JSON, say).
      `byteLength` is the length of `Buffer.from(response.data || '')`, or
      what that call throws when the body is a value it cannot convert (a
      JSON object, `true`, a non-zero number). `responseUrl` is the
      post-redirect URL, when the transport reports one. */
  datatype Response = Response(
    status: int,
    headers: HeaderList,
    data: Option<string>,
    byteLength: Result<nat, Thrown>,
    responseUrl: Option<string>)

  /** The part of a response attached to a transport error, when there is one. */
  datatype PartialResponse = PartialResponse(status: int, headers: HeaderList)

  /** The outcome of `axios.get`: it resolved with a response, or it threw an
      error with a `message` and a string form `String(error)`, carrying the
      response's status and headers when the server answered. */
  datatype Transport =
    | Responded(response: Response, elapsedMs: int)
    | Threw(message: string, asString: string, partial: Option<PartialResponse>, elapsedMs: int)

  /** The object `fetchPage` returns. `error` is `None` for `null`. */
  datatype FetchResult = FetchResult(
    ok: bool,
    finalUrl: string,
    status: Option<int>,
    headers: map<string, string>,
    html: string,
    responseMs: int,
    sizeBytes: nat,
    error: Option<string>)

  predicate IsUpper(c: char)
  {
    'A' <= c <= 'Z'
  }

  /** A header name with no upper-case letter. */
  predicate IsLowerCase(s: string)
  {
    forall i :: 0 <= i < |s| ==> !IsUpper(s[i])
  }

  function LowerChar(c: char): char
  {
    if IsUpper(c) then (c as int - 'A' as int + 'a' as int) as char else c
  }

  /** `String.prototype.toLowerCase` on the ASCII letters of a header name. */
  function ToLower(s: string): (r: string)
    ensures |r| == |s| && IsLowerCase(r)
    ensures forall i :: 0 <= i < |s| && !IsUpper(s[i]) ==> r[i] == s[i]
    ensures forall i :: 0 <= i < |s| && IsUpper(s[i]) ==> r[i] as int == s[i] as int - 'A' as int + 'a' as int
    ensures IsLowerCase(s) ==> r == s
  {
    seq(|s|, i requires 0 <= i < |s| => LowerChar(s[i]))
  }

  /** `Object.fromEntries(entries.map(([k, v]) => [k.toLowerCase(), v]))`:
      a later entry whose name lower-cases to the same key replaces an
      earlier one. */
  function LowerHeaders(hs: HeaderList): (r: map<string, string>)
    ensures forall k :: k in r ==> IsLowerCase(k)
    ensures forall i :: 0 <= i < |hs| ==> ToLower(hs[i].0) in r
    decreases |hs|
  {
    if hs == [] then map[]
    else
      var init := hs[..|hs| - 1];
      assert forall i :: 0 <= i < |init| ==> init[i] == hs[i];
      LowerHeaders(init)[ToLower(hs[|hs| - 1].0) := hs[|hs| - 1].1]
  }

  /** Every key of the lower-cased map comes from some header of the list. */
  lemma {:induction false} LowerHeadersKeysFromList(hs: HeaderList, k: string)
    requires k in LowerHeaders(hs)
    ensures exists i :: 0 <= i < |hs| && ToLower(hs[i].0) == k
    decreases |hs|
  {
    var init := hs[..|hs| - 1];
    if k != ToLower(hs[|hs| - 1].0) {
      LowerHeadersKeysFromList(init, k);
      var i :| 0 <= i < |init| && ToLower(init[i].0) == k;
      assert hs[i] == init[i];
    }
  }

  /** The value under a key is that of the last header whose name
      lower-cases to it. */
  lemma {:induction false} LowerHeadersLastWins(hs: HeaderList, i: int)
    requires 0 <= i < |hs| && LastWithKey(hs, i)
    ensures LowerHeaders(hs)[ToLower(hs[i].0)] == hs[i].1
    decreases |hs|
  {
    var init := hs[..|hs| - 1];
    if i < |hs| - 1 {
      assert init[i] == hs[i];
      forall j | i < j < |init| ensures ToLower(init[j].0) != ToLower(init[i].0) {
        assert init[j] == hs[j];
      }
      LowerHeadersLastWins(init, i);
    }
  }

  /** Entry `i` is the last one whose name lower-cases to its key. */
  predicate LastWithKey(hs: HeaderList, i: int)
    requires 0 <= i < |hs|
  {
    forall j :: i < j < |hs| ==> ToLower(hs[j].0) != ToLower(hs[i].0)
  }

  /** The transport resolved and the body's byte length could be taken:
      the only way the `try` block of `fetchPage` runs to its `return`. */
  predicate Delivered(outcome: Transport)
  {
    outcome.Responded? && outcome.response.byteLength.Ok?
  }

  /** `fetchPage(targetUrl)` once the transport has answered with `outcome`. */
  function FetchPage(targetUrl: string, outcome: Transport): (r: FetchResult)
    ensures r.ok <==> Delivered(outcome)
    ensures r.ok <==> r.error.None?
    ensures forall k :: k in r.headers ==> IsLowerCase(k)
    ensures r.responseMs == outcome.elapsedMs
    // delivered: its status, headers, body, size and the post-redirect URL (the request URL when none is reported)
    ensures Delivered(outcome) ==>
      var resp := outcome.response;
      && r.status == Some(resp.status)
      && r.headers == LowerHeaders(resp.headers)
      && r.sizeBytes == resp.byteLength.value
      && r.html == (if resp.data.Some? then resp.data.value else "")
      && r.finalUrl == (if resp.responseUrl.Some? && resp.responseUrl.value != "" then resp.responseUrl.value else targetUrl)
    // a failure: the requested URL, no body, no size
    ensures !Delivered(outcome) ==>
      && r.finalUrl == targetUrl
      && r.html == ""
      && r.sizeBytes == 0
    // the transport threw: its message, and the status and headers of the answer, if any (a zero status counts as none)
    ensures outcome.Threw? ==>
      && r.error == Some(ErrorText(Thrown(outcome.message, outcome.asString)))
      && (r.status.Some? <==> outcome.partial.Some? && outcome.partial.value.status != 0)
      && (r.status.Some? ==> r.status.value == outcome.partial.value.status)
      && r.headers == (if outcome.partial.Some? then LowerHeaders(outcome.partial.value.headers) else map[])
    // the body could not be measured: what `Buffer.from` threw, and no status or headers
    ensures outcome.Responded? && outcome.response.byteLength.Err? ==>
      && r.error == Some(ErrorText(outcome.response.byteLength.error))
      && r.status == None
      && r.headers == map[]
  {
    match outcome
    case Responded(resp, elapsed) =>
      (match resp.byteLength
      case Err(thrown) =>
        FetchResult(
          ok := false,
          finalUrl := targetUrl,
          status := None,
          headers := map[],
          html := "",
          responseMs := elapsed,
          sizeBytes := 0,
          error := Some(ErrorText(thrown)))
      case Ok(size) =>
        FetchResult(
          ok := true,
          finalUrl := if resp.responseUrl.Some? && resp.responseUrl.value != "" then resp.responseUrl.value else targetUrl,
          status := Some(resp.status),
          headers := LowerHeaders(resp.headers),
          html := if resp.data.Some? then resp.data.value else "",
          responseMs := elapsed,
          sizeBytes := size,
          error := None))
    case Threw(message, asString, partial, elapsed) =>
      FetchResult(
        ok := false,
        finalUrl := targetUrl,
        status := if partial.Some? && partial.value.status != 0 then Some(partial.value.status) else None,
        headers := if partial.Some? then LowerHeaders(partial.value.headers) else map[],
        html := "",
        responseMs := elapsed,
        sizeBytes := 0,
        error := Some(ErrorText(Thrown(message, asString))))
  }
}
