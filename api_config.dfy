/**
  The client's view of the REST API: base URL, endpoint paths, the default
  request options and the bearer-token variant of them.
 */
module ApiConfig {
  import opened Wrappers
  import opened Json

  const ApiBaseUrl: string := "http://127.0.0.1:5000"

  /** The six routes the client calls (the `ENDPOINTS` record). */
  datatype Endpoint = Register | Login | ResetPassword | UpdatePassword | Logout | UpdateProfile

  /** The path of each endpoint. */
  function Path(e: Endpoint): (p: string)
    ensures |p| > 1 && p[0] == '/'
  {
    match e
    case Register => "/register"
    case Login => "/login"
    case ResetPassword => "/reset-password"
    case UpdatePassword => "/update-password"
    case Logout => "/logout"
    case UpdateProfile => "/update-profile"
  }

  /** No two endpoints share a path. */
  lemma PathsDistinct(a: Endpoint, b: Endpoint)
    requires a != b
    ensures Path(a) != Path(b)
  {
  }

  function Url(e: Endpoint): string {
    ApiBaseUrl + Path(e)
  }

  /** A value in a fetch-options record: plain text, or a header record. */
  datatype OptionValue = Text(text: string) | Headers(fields: map<string, string>)

  /** A fetch-options record, keyed by option name. */
  type FetchOptions = map<string, OptionValue>

  const JsonContentType: map<string, string> := map["Content-Type" := "application/json"]

  /** `defaultFetchOptions`: send cookies, declare a JSON body. */
  const DefaultFetchOptions: FetchOptions :=
    map["credentials" := Text("include"), "headers" := Headers(JsonContentType)]

  const BearerPrefix: string := "Bearer "

  /**
    `withAuth(token, options)`: the default options, overridden by `options`,
    with the header record rebuilt from the default headers plus an
    Authorization entry (so any headers in `options` are dropped).
   */
  function WithAuth(token: string, options: FetchOptions): (r: FetchOptions)
    ensures r.Keys == {"credentials", "headers"} + options.Keys
    ensures r["headers"] == Headers(map["Content-Type" := "application/json", "Authorization" := BearerPrefix + token])
    ensures r["credentials"] == if "credentials" in options then options["credentials"] else Text("include")
    ensures forall k :: k in options && k != "headers" ==> r[k] == options[k]
  {
    var headers := Headers(JsonContentType["Authorization" := BearerPrefix + token]);
    (DefaultFetchOptions + options)["headers" := headers]
  }

  /** With no extra options, `withAuth` yields exactly the credentials and the two headers. */
  lemma WithAuthDefaults(token: string)
    ensures WithAuth(token, map[]) == map[
      "credentials" := Text("include"),
      "headers" := Headers(map["Content-Type" := "application/json", "Authorization" := BearerPrefix + token])]
  {
  }

  /** An HTTP request as the client issues it: HTTP method, URL, options and JSON body fields. */
  datatype Request = Request(verb: string, url: string, options: FetchOptions, body: Option<map<string, JsonValue>>)
}
