/** `riot_req`: one GET against the upstream API, with the response status and
    the transport failures mapped to the error records the tools pass on. The
    network call itself is not modelled: what the HTTP client reports is the
    input. */
module RiotRequest {
  import opened PyRuntime

  /** What the HTTP client reports for one GET: a timeout, another request
      error (its text), or a response with its status, its Retry-After header
      and its decoded JSON body. */
  datatype Transport<T> =
    | Timeout
    | RequestError(detail: string)
    | Response(status: int, retryAfter: Option<string>, body: T)

  /** A decoded JSON object: Falsy when it is null or {} (Python's `not data`). */
  datatype Body<+T> = Falsy | Object(fields: T)

  /** The failures riot_req turns into an error record. */
  datatype Failure =
    | RateLimited(retryAfter: string)
    | NotFound
    | Forbidden
    | Unauthorized
    | TimedOut
    | NetworkError(detail: string)

  /** What riot_req returns: an error record {"error": True, "message": ...}
      or the decoded JSON body. */
  datatype Fetched<+T> = Failed(failure: Failure) | Json(body: T)

  const RateLimitPrefix := "Rate limit hit. Retry after "
  const NetworkPrefix := "Network error "

  /** The "message" of an error record. The Retry-After value follows the
      rate-limit prefix verbatim, and the request error's text follows the
      network prefix and ends the message. */
  function Message(f: Failure): (r: string)
    ensures |r| > 0
    ensures f.RateLimited? ==> RateLimitPrefix + f.retryAfter <= r
    ensures f.NetworkError? ==> NetworkPrefix <= r && r[|NetworkPrefix|..] == f.detail
  {
    match f
    case RateLimited(after) => RateLimitPrefix + after + " seconds."
    case NotFound => "Resource not found"
    case Forbidden => "Invalid or expired API key."
    case Unauthorized => "Unauthorized. Check your API key."
    case TimedOut => "Request timeout"
    case NetworkError(detail) => NetworkPrefix + detail
  }

  predicate IsSuccess(status: int) {
    200 <= status < 300
  }

  /** riot_req's branch on the outcome of the GET. The statuses are tested in
      the order 429, 404, 403, 401; any other status outside 2xx reaches
      raise_for_status, whose HTTPStatusError neither except clause catches. */
  function RiotReq<T>(t: Transport<T>): (r: Outcome<Fetched<T>>)
    ensures t.Timeout? ==> r == Returned(Failed(TimedOut))
    ensures t.RequestError? ==> r == Returned(Failed(NetworkError(t.detail)))
    ensures t.Response? ==>
      match t.status
      case 429 => r == Returned(Failed(RateLimited(t.retryAfter.GetOr("unknown"))))
      case 404 => r == Returned(Failed(NotFound))
      case 403 => r == Returned(Failed(Forbidden))
      case 401 => r == Returned(Failed(Unauthorized))
      case _ => r == if IsSuccess(t.status) then Returned(Json(t.body)) else Raised(HttpStatusError(t.status))
  {
    match t
    case Timeout => Returned(Failed(TimedOut))
    case RequestError(detail) => Returned(Failed(NetworkError(detail)))
    case Response(status, retryAfter, body) =>
      if status == 429 then Returned(Failed(RateLimited(retryAfter.GetOr("unknown"))))
      else if status == 404 then Returned(Failed(NotFound))
      else if status == 403 then Returned(Failed(Forbidden))
      else if status == 401 then Returned(Failed(Unauthorized))
      else if !IsSuccess(status) then Raised(HttpStatusError(status))
      else Returned(Json(body))
  }

  /** The body is handed on exactly for a 2xx response, an exception escapes
      exactly for an unmapped non-2xx status, and every other outcome is an
      error record. */
  lemma RiotReqPartition<T>(t: Transport<T>)
    ensures RiotReq(t).Returned? && RiotReq(t).value.Json? <==> t.Response? && IsSuccess(t.status)
    ensures RiotReq(t).Raised? <==> t.Response? && !IsSuccess(t.status) && t.status !in {401, 403, 404, 429}
  {
  }

  /** Different failures carry different messages, so a caller can tell from
      the text alone which failure occurred (and read back the Retry-After
      value or the network error's detail). */
  lemma MessageInjective(f: Failure, g: Failure)
    requires Message(f) == Message(g)
    ensures f == g
  {
    var m := Message(f);
    if f.RateLimited? || g.RateLimited? {
      assert m[0] == 'R' && m[1] == 'a';
      assert f.RateLimited? && g.RateLimited? by {
        assert |m| >= |RateLimitPrefix| ==> m[..|RateLimitPrefix|] == RateLimitPrefix;
      }
      SuffixCancel(RateLimitPrefix, f.retryAfter, g.retryAfter, " seconds.");
    } else if f.NetworkError? || g.NetworkError? {
      assert m[0] == 'N';
      assert f.NetworkError? && g.NetworkError?;
      SuffixCancel(NetworkPrefix, f.detail, g.detail, "");
    }
  }

  lemma SuffixCancel(p: string, x: string, y: string, q: string)
    requires p + x + q == p + y + q
    ensures x == y
  {
    var s := p + x + q;
    assert x == s[|p|..|p| + |x|];
    assert y == s[|p|..|p| + |y|];
  }
}
