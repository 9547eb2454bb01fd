/** The token store: one string field, persisted across reloads. */
module Jwt {
  import opened Wrappers
  import opened Http

  const ValidateEndpoint: string := "/api/jwt/validate"

  /** The call `isValidToken` makes: a GET of the validation endpoint carrying
      only the bearer header. */
  function ValidationRequest(env: Env, token: string): (r: Request)
    ensures r.Bodiless? && r.verb == Get && r.url == RequestUrl(env, ValidateEndpoint)
    ensures WireHeaders(r.headers) == map[AuthorizationKey := "Bearer " + token]
  {
    Bodiless(Get, RequestUrl(env, ValidateEndpoint),
             map[AuthorizationKey := Some("Bearer " + token)])
  }

  /** For a held token, the validation call is the one the central wrapper
      would build for the same GET without custom headers. */
  lemma ValidationRequestIsWrapperRequest(env: Env, token: string)
    requires token != ""
    ensures ValidationRequest(env, token) == BuildRequest(env, token, Get, ValidateEndpoint, None, map[])
  {
    assert BuildHeaders(token, map[]) == map[AuthorizationKey := Some("Bearer " + token)];
  }

  class JwtStore {
    var jwtToken: string

    constructor ()
      ensures jwtToken == ""
    {
      jwtToken := "";
    }

    method SaveToken(token: string)
      modifies this
      ensures jwtToken == token
    {
      jwtToken := token;
    }

    method GetToken() returns (token: string)
      ensures token == jwtToken
    {
      token := jwtToken;
    }

    method DeleteToken()
      modifies this
      ensures jwtToken == ""
    {
      jwtToken := "";
    }

    /** Asks the server whether the stored token is valid. `outcome` is what
        the validation call comes back with; `sent` is the call made, if any.
        The method has no `modifies` clause: the token is never changed. */
    method IsValidToken<D>(env: Env, outcome: Outcome<D>) returns (valid: bool, sent: Option<Request>)
      ensures jwtToken == "" ==> sent == None && !valid
      ensures jwtToken != "" ==> sent == Some(ValidationRequest(env, jwtToken))
      ensures valid <==> jwtToken != "" && outcome.Success? && outcome.response.status == 200
    {
      if jwtToken == "" {
        return false, None;
      }
      sent := Some(ValidationRequest(env, jwtToken));
      match outcome
      case Success(response) =>
        valid := response.status == 200;
      case Failed(_) =>
        valid := false;
    }
  }

}
