/** The shapes shared by both request wrappers: verbs, headers, payloads,
    the request handed to the HTTP client and the outcome it comes back
    with. The HTTP client itself is not modelled; its outcome is an input. */
module Http {
  import opened Wrappers

  /** The verbs a wrapper accepts. */
  datatype Verb = Get | Post | Put | Patch | Delete

  /** A headers object: a key may be present with the value `undefined`. */
  type Headers = map<string, Option<string>>

  /** The JSON bodies the stores send. */
  datatype Json = JBool(b: bool) | JStr(s: string) | JObj(fields: map<string, Json>)

  /** The base URL and port, read from the build environment. */
  datatype Env = Env(apiUrl: string, apiPort: string)

  /** A call of the HTTP client: `Bodiless` is `client[verb](url, config)`,
      `WithBody` is `client[verb](url, data, config)`. */
  datatype Request =
    | Bodiless(verb: Verb, url: string, headers: Headers)
    | WithBody(verb: Verb, url: string, data: Option<Json>, headers: Headers)

  /** A resolved response; `data` is `None` when the body is null. */
  datatype Response<D> = Response(status: int, data: Option<D>)

  /** What a failed call throws: an HTTP error that carries a response with
      its status, a thrown string, or a transport error without a response. */
  datatype Failure = HttpStatus(status: int) | Thrown(message: string) | Transport

  /** The outcome of one call of the HTTP client. */
  datatype Outcome<D> = Success(response: Response<D>) | Failed(failure: Failure)

  /** How a wrapper call completes: it returns (a response or `undefined`)
      or it throws. */
  datatype Completion<D> = Returned(value: Option<Response<D>>) | Threw(failure: Failure)

  const AuthorizationKey: string := "Authorization"

  /** Only POST, PUT and PATCH carry a payload. */
  predicate CarriesPayload(v: Verb)
  {
    !(v == Get || v == Delete)
  }

  /** `apiUrl + ":" + apiPort + apiPoint`. */
  function RequestUrl(env: Env, apiPoint: string): (url: string)
    ensures |url| == |env.apiUrl| + 1 + |env.apiPort| + |apiPoint|
    ensures url[..|env.apiUrl|] == env.apiUrl
    ensures url[|env.apiUrl|] == ':'
    ensures url[|env.apiUrl| + 1..|env.apiUrl| + 1 + |env.apiPort|] == env.apiPort
    ensures url[|url| - |apiPoint|..] == apiPoint
  {
    env.apiUrl + ":" + env.apiPort + apiPoint
  }

  /** The headers object: a bearer `Authorization` entry (`undefined` for the
      empty token) with the caller's headers spread over it. */
  function BuildHeaders(token: string, custom: Headers): (h: Headers)
    ensures h.Keys == custom.Keys + {AuthorizationKey}
    ensures forall k :: k in custom ==> h[k] == custom[k]
    ensures AuthorizationKey !in custom ==>
              h[AuthorizationKey] == (if token != "" then Some("Bearer " + token) else None)
  {
    map[AuthorizationKey := if token != "" then Some("Bearer " + token) else None] + custom
  }

  /** What goes on the wire: the entries whose value is defined. */
  function WireHeaders(h: Headers): (w: map<string, string>)
    ensures forall k :: k in w <==> k in h && h[k].Some?
    ensures forall k :: k in w ==> w[k] == h[k].value
  {
    map k | k in h && h[k].Some? :: h[k].value
  }

  /** Without a caller-supplied `Authorization`, the header reaches the wire
      exactly when a token is held, and then it is the bearer form. */
  lemma BearerOnWire(token: string, custom: Headers)
    requires AuthorizationKey !in custom
    ensures AuthorizationKey in WireHeaders(BuildHeaders(token, custom)) <==> token != ""
    ensures token != "" ==> WireHeaders(BuildHeaders(token, custom))[AuthorizationKey] == "Bearer " + token
  {
  }

  /** A caller-supplied `Authorization` wins over the token, whatever it is. */
  lemma CustomAuthorizationWins(token: string, token': string, custom: Headers)
    requires AuthorizationKey in custom
    ensures BuildHeaders(token, custom) == BuildHeaders(token', custom)
  {
  }

  /** The request a wrapper hands to the HTTP client. */
  function BuildRequest(env: Env, token: string, verb: Verb, apiPoint: string,
                        dataJson: Option<Json>, custom: Headers): (r: Request)
    ensures r.verb == verb && r.url == RequestUrl(env, apiPoint)
    ensures r.headers == BuildHeaders(token, custom)
    ensures r.WithBody? <==> verb in {Post, Put, Patch}
    ensures r.WithBody? ==> r.data == dataJson
  {
    var url := RequestUrl(env, apiPoint);
    var headers := BuildHeaders(token, custom);
    if CarriesPayload(verb) then WithBody(verb, url, dataJson, headers)
    else Bodiless(verb, url, headers)
  }

  /** GET and DELETE ignore whatever payload the caller passed. */
  lemma BodilessIgnoresPayload(env: Env, token: string, verb: Verb, apiPoint: string,
                               d1: Option<Json>, d2: Option<Json>, custom: Headers)
    requires verb == Get || verb == Delete
    ensures BuildRequest(env, token, verb, apiPoint, d1, custom)
         == BuildRequest(env, token, verb, apiPoint, d2, custom)
  {
  }

}
