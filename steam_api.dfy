/** The values that cross the proxy: the six-field request key, the upstream
    document as far as the handler reads it, the upstream reply, and the
    failures a request can end in. */
module SteamApi {

  datatype Option<+T> = None | Some(value: T) {
    function GetOr(default: T): T
    {
      match this
      case Some(v) => v
      case None => default
    }
  }

  datatype Result<+T> = Ok(value: T) | Err(error: Failure)

  /** How a request fails. */
  datatype Failure =
    | /** The upstream answered with a status other than 200; the request
          fails with that status and the upstream's raw body. */
      UpstreamError(status: int, content: seq<char>)
    | /** The upstream document has no "response" member (a KeyError). */
      MissingResponse
    | /** `limit` was 0, so computing the page count divides by zero. */
      ZeroDivision

  /** The arguments the fetch is memoised on. Two requests share a cache
      entry exactly when all six fields are equal. */
  datatype CacheKey = CacheKey(
    key: string,
    steamid: string,
    includeAppinfo: int,
    includePlayedFreeGames: int,
    skipUnvettedApps: int,
    format: string)

  /** The "response" member of the upstream document; either field may be
      absent. Game records `G` are passed through uninterpreted. */
  datatype ResponseBody<G> = ResponseBody(gameCount: Option<int>, games: Option<seq<G>>)

  /** The decoded upstream JSON document, reduced to the member the handler
      reads. */
  datatype Document<G> = Document(response: Option<ResponseBody<G>>)

  /** One answer of the upstream endpoint: its HTTP status, its raw body,
      and the document that body decodes to (read only when the status is
      200). */
  datatype Reply<G> = Reply(status: int, content: seq<char>, json: Document<G>)

  /** The upstream endpoint as seen from the proxy: the reply it gives for a
      key at a given reading of the monotonic clock, in seconds. */
  type Upstream<G> = (CacheKey, real) -> Reply<G>

  /** The outcome of one upstream call: the decoded document on status 200,
      otherwise the upstream failure passed through unchanged. */
  function Fetch<G>(reply: Reply<G>): (r: Result<Document<G>>)
    ensures r.Ok? <==> reply.status == 200
    ensures r.Ok? ==> r.value == reply.json
    ensures r.Err? ==> r.error.UpstreamError? && r.error.status == reply.status && r.error.content == reply.content
  {
    if reply.status != 200 then Err(UpstreamError(reply.status, reply.content))
    else Ok(reply.json)
  }
}
