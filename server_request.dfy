/** The central request wrapper every store action goes through. It attaches
    the bearer header, picks the call shape by verb and absorbs one failure:
    a 401 while a token is held, which logs the user out. */
module ServerRequest {
  import opened Wrappers
  import opened Http
  import opened Auth

  /** The one failure the wrapper does not rethrow. */
  predicate SwallowsUnauthorized<D>(token: string, outcome: Outcome<D>)
  {
    outcome.Failed? && outcome.failure.HttpStatus? && outcome.failure.status == 401 && token != ""
  }

  /** How the wrapper completes for the token it read and the outcome of its
      call. */
  function Completes<D>(token: string, outcome: Outcome<D>): (c: Completion<D>)
    ensures outcome.Success? ==> c == Returned(Some(outcome.response))
    ensures c == Returned(None) <==> SwallowsUnauthorized(token, outcome)
    ensures c.Threw? <==> outcome.Failed? && !SwallowsUnauthorized(token, outcome)
    ensures c.Threw? ==> c.failure == outcome.failure
  {
    match outcome
    case Success(response) => Returned(Some(response))
    case Failed(failure) =>
      if failure.HttpStatus? && failure.status == 401 && token != "" then Returned(None)
      else Threw(failure)
  }

  /** The session after the wrapper ran: logged out on the absorbed 401,
      untouched otherwise. */
  function SessionAfter<D>(s: Session, outcome: Outcome<D>): (r: Session)
    ensures SwallowsUnauthorized(s.token, outcome) ==> r.token == "" && !r.loggedIn && r.pushed == s.pushed + [LoginPath]
    ensures !SwallowsUnauthorized(s.token, outcome) ==> r == s
  {
    if SwallowsUnauthorized(s.token, outcome) then LoggedOut(s) else s
  }

  /** A 401 without a token, any other status and every non-HTTP failure
      reach the caller as they came. */
  lemma OtherFailuresRethrown<D>(token: string, f: Failure)
    requires !(f.HttpStatus? && f.status == 401) || token == ""
    ensures Completes<D>(token, Failed(f)) == Threw(f)
  {
  }

  /** The wrapper never throws for the session's own 401 and never leaves a
      held token in place after it. */
  lemma UnauthorizedEndsSession<D>(s: Session, outcome: Outcome<D>)
    requires outcome == Failed(HttpStatus(401)) && s.token != ""
    ensures !Completes(s.token, outcome).Threw?
    ensures SessionAfter(s, outcome).token == "" && !SessionAfter(s, outcome).loggedIn
  {
  }

  /** `useServerRequest`: `sent` is the call handed to the HTTP client and
      `outcome` is what that call came back with. */
  method UseServerRequest<D>(auth: AuthStore, env: Env, verb: Verb, apiPoint: string,
                             dataJson: Option<Json>, custom: Headers, outcome: Outcome<D>)
    returns (sent: Request, c: Completion<D>)
    modifies auth, auth.jwt, auth.router
    ensures sent == BuildRequest(env, old(auth.jwt.jwtToken), verb, apiPoint, dataJson, custom)
    ensures c == Completes(old(auth.jwt.jwtToken), outcome)
    ensures auth.State() == SessionAfter(old(auth.State()), outcome)
  {
    var token := auth.jwt.GetToken();
    sent := BuildRequest(env, token, verb, apiPoint, dataJson, custom);
    match outcome
    case Success(response) =>
      c := Returned(Some(response));
    case Failed(failure) =>
      if failure.HttpStatus? && failure.status == 401 && token != "" {
        auth.Logout();
        c := Returned(None);
      } else {
        c := Threw(failure);
      }
  }

}
