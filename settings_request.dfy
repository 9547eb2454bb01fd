/** The older request wrapper used by the settings components. It builds the
    request like the central one but classifies failures differently: every
    HTTP error and every thrown string is absorbed, a 401 only moves the
    window to the login page, and only a failure without a response that is
    not a string is rethrown. */
module SettingsRequest {
  import opened Wrappers
  import opened Http
  import opened Jwt
  import opened Navigation
  import Auth
  import Central = ServerRequest

  /** The failure that moves the window to the login page. */
  predicate RedirectsToLogin<D>(outcome: Outcome<D>)
  {
    outcome == Failed(HttpStatus(401))
  }

  /** How `serverRequest` completes for the outcome of its call. */
  function Completes<D>(outcome: Outcome<D>): (c: Completion<D>)
    ensures outcome.Success? ==> c == Returned(Some(outcome.response))
    ensures c.Threw? <==> outcome == Failed(Transport)
    ensures c.Threw? ==> c.failure == Transport
    ensures outcome.Failed? && !outcome.failure.Transport? ==> c == Returned(None)
  {
    match outcome
    case Success(response) => Returned(Some(response))
    case Failed(failure) =>
      match failure
      case HttpStatus(_) => Returned(None)
      case Thrown(_) => Returned(None)
      case Transport => Threw(Transport)
  }

  /** Where the two wrappers part: on a 401 with a token held the central
      wrapper logs out and this one does not; on any other HTTP status the
      central wrapper rethrows and this one returns nothing. */
  lemma WrappersDisagreeOnHttpErrors<D>(token: string, status: int)
    ensures Central.Completes<D>(token, Failed(HttpStatus(status))).Threw?
        <==> !(status == 401 && token != "")
    ensures Completes<D>(Failed(HttpStatus(status))) == Returned(None)
  {
  }

  /** `serverRequest`: `sent` is the call handed to the HTTP client and
      `outcome` is what that call came back with. The token store is only
      read. */
  method ServerRequest<D>(jwt: JwtStore, window: Window, env: Env, verb: Verb, apiPoint: string,
                          dataJson: Option<Json>, custom: Headers, outcome: Outcome<D>)
    returns (sent: Request, c: Completion<D>)
    requires verb != Put
    modifies window
    ensures sent == BuildRequest(env, jwt.jwtToken, verb, apiPoint, dataJson, custom)
    ensures c == Completes(outcome)
    ensures window.href == if RedirectsToLogin(outcome) then Auth.LoginPath else old(window.href)
  {
    var token := jwt.GetToken();
    sent := BuildRequest(env, token, verb, apiPoint, dataJson, custom);
    match outcome
    case Success(response) =>
      c := Returned(Some(response));
    case Failed(failure) =>
      match failure
      case HttpStatus(status) =>
        if status == 401 {
          window.Assign(Auth.LoginPath);
        }
        c := Returned(None);
      case Thrown(_) =>
        c := Returned(None);
      case Transport =>
        c := Threw(Transport);
  }

}
