/**
 * The pure parts of services/apiService.ts: the base-URL normalisation, the request headers,
 * the response envelope, and the error policies of list, statistics, mutating and delete calls.
 * The `fetch` transport itself is a parameter (`Transport`).
 */
module Api {
  import opened Types
  import opened Text

  /** A settled backend call: its data, or the message of the error it raised. */
  datatype Outcome<+T> = Ok(value: T) | Err(message: string)

  const DefaultBaseUrl := "http://localhost:8000"
  const ApiSuffix := "/api/v1"
  const GenericFailure := "API request failed"

  /** `import.meta.env.VITE_API_BASE_URL || 'http://localhost:8000'`. */
  function RawBaseUrl(env: Option<string>): (raw: string)
    ensures env.Some? && env.value != "" ==> raw == env.value
    ensures env.None? || env.value == "" ==> raw == DefaultBaseUrl
  {
    if env.Some? && env.value != "" then env.value else DefaultBaseUrl
  }

  /** `s.replace(/\/$/, '')`: at most one trailing slash removed. */
  function StripTrailingSlash(s: string): (r: string)
    ensures EndsWith(s, "/") ==> s == r + "/"
    ensures !EndsWith(s, "/") ==> r == s
  {
    if s != "" && s[|s| - 1] == '/' then s[..|s| - 1] else s
  }

  /** `API_BASE_URL`: kept when it already ends in "/api/v1", otherwise that suffix is appended. */
  function NormalizeBaseUrl(raw: string): (url: string)
    ensures EndsWith(url, ApiSuffix)
    ensures EndsWith(raw, ApiSuffix) ==> url == raw
    ensures !EndsWith(raw, ApiSuffix) ==> url == StripTrailingSlash(raw) + ApiSuffix
  {
    if EndsWith(raw, ApiSuffix) then raw
    else
      var url := StripTrailingSlash(raw) + ApiSuffix;
      assert url[|url| - |ApiSuffix|..] == ApiSuffix;
      url
  }

  /** Normalising an already normalised URL changes nothing. */
  lemma NormalizeIdempotent(raw: string)
    ensures NormalizeBaseUrl(NormalizeBaseUrl(raw)) == NormalizeBaseUrl(raw)
  {
  }

  /** With no environment setting the API lives at "http://localhost:8000/api/v1". */
  lemma DefaultApiBaseUrl()
    ensures NormalizeBaseUrl(RawBaseUrl(None)) == "http://localhost:8000/api/v1"
  {
    assert !EndsWith(DefaultBaseUrl, ApiSuffix) by {
      assert DefaultBaseUrl[|DefaultBaseUrl| - |ApiSuffix|..] != ApiSuffix by {
        assert DefaultBaseUrl[|DefaultBaseUrl| - 1] == '0';
      }
    }
  }

  /** `getHeaders()` for the stored access token `token` (`localStorage.getItem('token')`). */
  function Headers(token: Option<string>): (h: map<string, string>)
    ensures "Content-Type" in h && h["Content-Type"] == "application/json"
    ensures "Authorization" in h <==> token.Some? && token.value != ""
    ensures "Authorization" in h ==> h["Authorization"] == "Bearer " + token.value
    ensures h.Keys <= {"Content-Type", "Authorization"}
  {
    var base := map["Content-Type" := "application/json"];
    if token.Some? && token.value != "" then base["Authorization" := "Bearer " + token.value] else base
  }

  /**
   * A received HTTP response: its `ok` flag, the `message` of its JSON error body ("" when the body
   * is not JSON or carries no message), and the `data` field of its JSON success body.
   */
  datatype Reply<T> = Reply(ok: bool, message: string, data: T)

  /** A `fetch` that either produced a response or was rejected (network failure) with a message. */
  datatype Transport<T> = Delivered(reply: Reply<T>) | Rejected(reason: string)

  /** `handleResponse`: the body's data on success, otherwise an error carrying the body's message. */
  function HandleResponse<T>(r: Reply<T>): (o: Outcome<T>)
    ensures o.Ok? <==> r.ok
    ensures o.Ok? ==> o.value == r.data
    ensures o.Err? ==> o.message == (if r.message != "" then r.message else GenericFailure)
    ensures o.Err? ==> o.message != ""
  {
    if !r.ok then Err(if r.message != "" then r.message else GenericFailure)
    else Ok(r.data)
  }

  /** A mutating call (`add*`, `update*`, `chatWithAI`): its error, whatever the cause, is rethrown. */
  function MutatingCall<T>(t: Transport<T>): (o: Outcome<T>)
    ensures o.Ok? <==> t.Delivered? && t.reply.ok
    ensures o.Ok? ==> o.value == t.reply.data
    ensures t.Rejected? ==> o == Err(t.reason)
  {
    match t
    case Delivered(r) => HandleResponse(r)
    case Rejected(reason) => Err(reason)
  }

  /** A list fetch (`getContacts`, `getBookings`, `getManualMatches`, `getRepositories`): `[]` on any error. */
  function ListCall<T>(t: Transport<seq<T>>): (items: seq<T>)
    ensures MutatingCall(t).Ok? ==> items == MutatingCall(t).value
    ensures MutatingCall(t).Err? ==> items == []
  {
    match MutatingCall(t)
    case Ok(items) => items
    case Err(_) => []
  }

  /** `getDashboardStats`: `null` on any error. */
  function StatsCall<T>(t: Transport<T>): (stats: Option<T>)
    ensures stats.Some? <==> t.Delivered? && t.reply.ok
    ensures stats.Some? ==> stats.value == t.reply.data
  {
    match MutatingCall(t)
    case Ok(s) => Some(s)
    case Err(_) => None
  }

  /**
   * A delete call for resource `what` ("booking", "contact", "manual match", "repository"):
   * `true` exactly when the response is ok; the body is never read.
   */
  function DeleteCall<T>(t: Transport<T>, what: string): (o: Outcome<bool>)
    ensures o.Ok? <==> t.Delivered? && t.reply.ok
    ensures o.Ok? ==> o.value
    ensures t.Delivered? && !t.reply.ok ==> o == Err("Failed to delete " + what)
    ensures t.Rejected? ==> o == Err(t.reason)
  {
    match t
    case Delivered(r) => if r.ok then Ok(true) else Err("Failed to delete " + what)
    case Rejected(reason) => Err(reason)
  }

  /** A list fetch never fails: a failed call and an empty list are indistinguishable to the caller. */
  lemma ListCallHidesFailure<T>(t: Transport<seq<T>>)
    ensures ListCall(t) != [] ==> t.Delivered? && t.reply.ok && ListCall(t) == t.reply.data
  {
  }
}
