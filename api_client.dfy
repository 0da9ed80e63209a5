/**
 * The browser's HTTP client: a base URL kept without trailing slashes,
 * endpoint normalisation and URL joining, the outcome of a `fetch` reply,
 * and the `get`/`post` wrappers that add a bearer token when a call
 * requires authentication. `fetch` and the token provider are not run:
 * their results are parameters.
 */
module BrowserApi {
  import opened Wrappers
  import opened JsonValues
  import opened Text

  /** What `fetch` produced: a response (its `ok` flag, status line and parsed body) or a rejected promise. */
  datatype FetchReply =
    | Response(ok: bool, status: int, statusText: string, body: Json)
    | NetworkError(message: string)

  type Headers = map<string, string>

  /** The request handed to `fetch`. */
  datatype Sent = Sent(url: string, httpMethod: string, headers: Headers, body: Option<Json>)

  const JsonContentType: Headers := map["Content-Type" := "application/json"]
  const FailedPrefix := "API call failed: "
  const NoTokenError := "Authentication required but no token available"

  /** `s.replace(/\/+$/, '')`. */
  function StripTrailingSlashes(s: string): (r: string)
    ensures |r| <= |s| && s[..|r|] == r
    ensures r == [] || r[|r| - 1] != '/'
    ensures forall i :: |r| <= i < |s| ==> s[i] == '/'
    decreases |s|
  {
    if s != [] && s[|s| - 1] == '/' then StripTrailingSlashes(s[..|s| - 1]) else s
  }

  /** The three properties above pin the stripped string down: any prefix followed only by slashes, not itself ending in one, is it. */
  lemma {:induction false} StripTrailingSlashesUnique(r: string, slashes: string)
    requires r == [] || r[|r| - 1] != '/'
    requires forall i :: 0 <= i < |slashes| ==> slashes[i] == '/'
    ensures StripTrailingSlashes(r + slashes) == r
    decreases |slashes|
  {
    if slashes == [] {
      assert r + slashes == r;
    } else {
      var shorter := slashes[..|slashes| - 1];
      assert (r + slashes)[..|r + slashes| - 1] == r + shorter;
      StripTrailingSlashesUnique(r, shorter);
    }
  }

  lemma StripTrailingSlashesIdempotent(s: string)
    ensures StripTrailingSlashes(StripTrailingSlashes(s)) == StripTrailingSlashes(s)
  {
    var r := StripTrailingSlashes(s);
    assert r + [] == r;
    StripTrailingSlashesUnique(r, []);
  }

  /** The endpoint with a leading '/' added when it has none. */
  function NormaliseEndpoint(endpoint: string): (r: string)
    ensures |r| >= 1 && r[0] == '/'
    ensures StartsWith(endpoint, "/") ==> r == endpoint
    ensures !StartsWith(endpoint, "/") ==> r == "/" + endpoint
    ensures StartsWith(r, "/")
  {
    if StartsWith(endpoint, "/") then endpoint else "/" + endpoint
  }

  /** What `request` returns for a reply: a non-ok response raises with its status text, an ok one yields its body. */
  function ResponseOutcome(reply: FetchReply): (r: Result<Json, string>)
    ensures r.Ok? <==> reply.Response? && reply.ok
    ensures r.Ok? ==> r.value == reply.body
    ensures reply.Response? && !reply.ok ==> r == Err(FailedPrefix + reply.statusText)
    ensures reply.NetworkError? ==> r == Err(reply.message)
  {
    match reply
    case NetworkError(m) => Err(m)
    case Response(ok, _, text, body) => if ok then Ok(body) else Err(FailedPrefix + text)
  }

  class ApiClient {
    var baseUrl: string

    constructor(baseUrl: string)
      ensures this.baseUrl == StripTrailingSlashes(baseUrl)
      ensures this.baseUrl == [] || this.baseUrl[|this.baseUrl| - 1] != '/'
    {
      this.baseUrl := StripTrailingSlashes(baseUrl);
    }

    /**
     * `request(endpoint, options)`: the URL is the base URL followed by the
     * normalised endpoint; the caller's headers are laid over the JSON
     * content type.
     */
    method Request(endpoint: string, httpMethod: string, headers: Headers, body: Option<Json>, reply: FetchReply)
      returns (sent: Sent, r: Result<Json, string>)
      ensures sent.url == baseUrl + NormaliseEndpoint(endpoint)
      ensures sent.httpMethod == httpMethod && sent.body == body
      ensures sent.headers.Keys == JsonContentType.Keys + headers.Keys
      ensures forall k :: k in headers ==> sent.headers[k] == headers[k]
      ensures "Content-Type" !in headers ==> sent.headers["Content-Type"] == "application/json"
      ensures r == ResponseOutcome(reply)
    {
      var normalised := if StartsWith(endpoint, "/") then endpoint else "/" + endpoint;
      var url := baseUrl + normalised;
      sent := Sent(url, httpMethod, JsonContentType + headers, body);
      match reply {
        case NetworkError(m) =>
          r := Err(m);
        case Response(ok, _, text, data) =>
          if !ok {
            r := Err(FailedPrefix + text);
          } else {
            r := Ok(data);
          }
      }
    }
  }

  /**
   * The headers `get` and `post` build: the JSON content type, and
   * `Authorization: Bearer <token>` when the call requires authentication;
   * a missing or empty token raises before anything is sent.
   */
  method AuthHeaders(requiresAuth: bool, token: Option<string>) returns (r: Result<Headers, string>)
    ensures !requiresAuth ==> r == Ok(JsonContentType)
    ensures requiresAuth && (token.None? || token.value == "") ==> r == Err(NoTokenError)
    ensures requiresAuth && token.Some? && token.value != "" ==>
      r.Ok? && r.value.Keys == {"Content-Type", "Authorization"}
      && r.value["Content-Type"] == "application/json" && r.value["Authorization"] == "Bearer " + token.value
  {
    var headers := JsonContentType;
    if requiresAuth {
      if token.None? || token.value == "" {
        return Err(NoTokenError);
      }
      headers := headers["Authorization" := "Bearer " + token.value];
    }
    r := Ok(headers);
  }

  /** The object `createAuthenticatedClient` returns; the token provider's answer is passed to each call. */
  class AuthenticatedClient {
    const client: ApiClient

    constructor(baseUrl: string)
      ensures client.baseUrl == StripTrailingSlashes(baseUrl)
    {
      client := new ApiClient(baseUrl);
    }

    /** A call that is refused for want of a token sends nothing; otherwise exactly one request goes out. */
    predicate Delivered(requiresAuth: bool, token: Option<string>, endpoint: string, httpMethod: string,
                        body: Option<Json>, reply: FetchReply, sent: Option<Sent>, r: Result<Json, string>)
      reads this, client
    {
      if requiresAuth && (token.None? || token.value == "") then
        sent.None? && r == Err(NoTokenError)
      else
        sent.Some? && sent.value.url == client.baseUrl + NormaliseEndpoint(endpoint)
        && sent.value.httpMethod == httpMethod && sent.value.body == body
        && "Content-Type" in sent.value.headers && sent.value.headers["Content-Type"] == "application/json"
        && ("Authorization" in sent.value.headers <==> requiresAuth)
        && (requiresAuth ==> sent.value.headers["Authorization"] == "Bearer " + token.value)
        && r == ResponseOutcome(reply)
    }

    method Get(endpoint: string, requiresAuth: bool, token: Option<string>, reply: FetchReply)
      returns (sent: Option<Sent>, r: Result<Json, string>)
      ensures Delivered(requiresAuth, token, endpoint, "GET", None, reply, sent, r)
    {
      var headers := AuthHeaders(requiresAuth, token);
      if headers.Err? {
        return None, Err(headers.error);
      }
      var request;
      request, r := client.Request(endpoint, "GET", headers.value, None, reply);
      sent := Some(request);
    }

    method Post(endpoint: string, data: Json, requiresAuth: bool, token: Option<string>, reply: FetchReply)
      returns (sent: Option<Sent>, r: Result<Json, string>)
      ensures Delivered(requiresAuth, token, endpoint, "POST", Some(data), reply, sent, r)
    {
      var headers := AuthHeaders(requiresAuth, token);
      if headers.Err? {
        return None, Err(headers.error);
      }
      var request;
      request, r := client.Request(endpoint, "POST", headers.value, Some(data), reply);
      sent := Some(request);
    }
  }
}
