/** The authentication flag and the logout that clears the session. */
module Auth {
  import opened Jwt
  import opened Navigation

  /** The state the session operations touch: the stored token, the flag and
      the paths pushed on the router. */
  datatype Session = Session(token: string, loggedIn: bool, pushed: seq<string>)

  const LoginPath: string := "/login"

  /** The session after `logout`. */
  function LoggedOut(s: Session): (r: Session)
    ensures r.token == "" && !r.loggedIn
    ensures r.pushed == s.pushed + [LoginPath]
  {
    Session("", false, s.pushed + [LoginPath])
  }

  /** A second `logout` leaves token and flag as the first left them and only
      pushes `/login` once more. */
  lemma LogoutIdempotent(s: Session)
    ensures LoggedOut(LoggedOut(s)).token == LoggedOut(s).token
    ensures LoggedOut(LoggedOut(s)).loggedIn == LoggedOut(s).loggedIn
    ensures LoggedOut(LoggedOut(s)).pushed == LoggedOut(s).pushed + [LoginPath]
  {
  }

  class AuthStore {
    var isLoggedIn: bool
    const jwt: JwtStore
    const router: Router

    ghost function State(): Session
      reads this, jwt, router
    {
      Session(jwt.jwtToken, isLoggedIn, router.pushed)
    }

    constructor (jwt: JwtStore, router: Router)
      ensures this.jwt == jwt && this.router == router
      ensures !isLoggedIn
    {
      this.jwt := jwt;
      this.router := router;
      isLoggedIn := false;
    }

    /** Reports the flag; changes nothing. */
    method IsAuthenticated() returns (b: bool)
      ensures b == isLoggedIn
    {
      b := isLoggedIn;
    }

    method Login()
      modifies this
      ensures isLoggedIn
    {
      isLoggedIn := true;
    }

    method Logout()
      modifies this, jwt, router
      ensures State() == LoggedOut(old(State()))
    {
      jwt.DeleteToken();
      isLoggedIn := false;
      router.Push(LoginPath);
    }
  }

}
