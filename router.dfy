/** The route table and its navigation guards. A guard sees the name of the
    route being left (undefined on the first navigation) and the login flag,
    and either lets the navigation proceed or redirects it. */
module Routes {
  import opened Wrappers
  import Auth

  /** Which guard a route carries: none, the one of the pages for visitors
      (register, login) or the one of the pages for members (lexiai,
      settings). */
  datatype Guard = Unguarded | GuestOnly | MembersOnly

  datatype Route = Route(path: string, name: string, guard: Guard)

  datatype Verdict = Proceed | RedirectTo(path: string)

  const LexiaiPath: string := "/lexiai"

  /** The table in declaration order; `/lexiai` reuses the name `gemini`. */
  const RouteTable: seq<Route> := [
    Route("/", "home", Unguarded),
    Route("/register", "register", GuestOnly),
    Route(Auth.LoginPath, "login", GuestOnly),
    Route("/test", "test", Unguarded),
    Route("/gemini", "gemini", Unguarded),
    Route(LexiaiPath, "gemini", MembersOnly),
    Route("/settings", "settings", MembersOnly)
  ]

  /** The guard of `/register` and `/login`: a logged-in user is sent to
      `/lexiai` unless coming from a route named `lexiai`. */
  function GuestGuard(fromName: Option<string>, isLoggedIn: bool): (v: Verdict)
    ensures v == RedirectTo(LexiaiPath) <==> fromName != Some("lexiai") && isLoggedIn
    ensures v == Proceed <==> !(fromName != Some("lexiai") && isLoggedIn)
  {
    if fromName != Some("lexiai") && isLoggedIn then RedirectTo(LexiaiPath) else Proceed
  }

  /** The guard of `/lexiai` and `/settings`: a visitor is sent to `/login`
      unless coming from the route named `login`. */
  function MemberGuard(fromName: Option<string>, isLoggedIn: bool): (v: Verdict)
    ensures v == RedirectTo(Auth.LoginPath) <==> fromName != Some("login") && !isLoggedIn
    ensures v == Proceed <==> !(fromName != Some("login") && !isLoggedIn)
  {
    if fromName != Some("login") && !isLoggedIn then RedirectTo(Auth.LoginPath) else Proceed
  }

  function RunGuard(g: Guard, fromName: Option<string>, isLoggedIn: bool): Verdict
  {
    match g
    case Unguarded => Proceed
    case GuestOnly => GuestGuard(fromName, isLoggedIn)
    case MembersOnly => MemberGuard(fromName, isLoggedIn)
  }

  /** The first route of `routes` from position `i` on with the given path. */
  function LookupFrom(routes: seq<Route>, path: string, i: nat): (r: Option<Route>)
    ensures r.Some? ==> r.value in routes && r.value.path == path
    ensures r.Some? ==> exists k :: i <= k < |routes| && routes[k] == r.value &&
                                    forall j :: i <= j < k ==> routes[j].path != path
    ensures r.None? ==> forall j :: i <= j < |routes| ==> routes[j].path != path
    decreases |routes| - i
  {
    if i >= |routes| then None
    else if routes[i].path == path then Some(routes[i])
    else LookupFrom(routes, path, i + 1)
  }

  /** The first route of `routes` with the given path. */
  function Lookup(routes: seq<Route>, path: string): (r: Option<Route>)
    ensures r.Some? ==> r.value in routes && r.value.path == path
    ensures r.Some? ==> exists k :: 0 <= k < |routes| && routes[k] == r.value &&
                                    forall j :: 0 <= j < k ==> routes[j].path != path
    ensures r.None? ==> forall j :: 0 <= j < |routes| ==> routes[j].path != path
  {
    LookupFrom(routes, path, 0)
  }

  /** The per-route guard verdict for a navigation to `path`. A path outside
      the table matches no route and so runs no guard. */
  function BeforeEnter(path: string, fromName: Option<string>, isLoggedIn: bool): (v: Verdict)
    ensures path == "/register" || path == Auth.LoginPath ==> v == GuestGuard(fromName, isLoggedIn)
    ensures path == LexiaiPath || path == "/settings" ==> v == MemberGuard(fromName, isLoggedIn)
    ensures !(path in {"/register", Auth.LoginPath, LexiaiPath, "/settings"}) ==> v == Proceed
  {
    assert RouteTable[1].path == "/register" && RouteTable[2].path == Auth.LoginPath;
    assert RouteTable[5].path == LexiaiPath && RouteTable[6].path == "/settings";
    match Lookup(RouteTable, path)
    case None => Proceed
    case Some(r) => RunGuard(r.guard, fromName, isLoggedIn)
  }

  /** The name a navigation can come from: a name of the table, or undefined
      for the first navigation. */
  predicate KnownOrigin(fromName: Option<string>)
  {
    fromName.None? || exists i :: 0 <= i < |RouteTable| && RouteTable[i].name == fromName.value
  }

  /** No route is named `lexiai`; the `/lexiai` route is named `gemini`. */
  lemma NoRouteNamedLexiai()
    ensures forall i :: 0 <= i < |RouteTable| ==> RouteTable[i].name != "lexiai"
    ensures Lookup(RouteTable, LexiaiPath) == Some(Route(LexiaiPath, "gemini", MembersOnly))
  {
    assert LookupFrom(RouteTable, LexiaiPath, 0) == LookupFrom(RouteTable, LexiaiPath, 1);
    assert LookupFrom(RouteTable, LexiaiPath, 1) == LookupFrom(RouteTable, LexiaiPath, 2);
    assert LookupFrom(RouteTable, LexiaiPath, 2) == LookupFrom(RouteTable, LexiaiPath, 3);
    assert LookupFrom(RouteTable, LexiaiPath, 3) == LookupFrom(RouteTable, LexiaiPath, 4);
    assert LookupFrom(RouteTable, LexiaiPath, 4) == LookupFrom(RouteTable, LexiaiPath, 5);
  }

  /** So the `from.name != 'lexiai'` test never fails: the `/register` and
      `/login` guards redirect exactly when the user is logged in. */
  lemma GuestGuardReduces(fromName: Option<string>, isLoggedIn: bool)
    requires KnownOrigin(fromName)
    ensures GuestGuard(fromName, isLoggedIn) == if isLoggedIn then RedirectTo(LexiaiPath) else Proceed
  {
    NoRouteNamedLexiai();
  }

  /** The routes without a guard always let the navigation proceed. */
  lemma UnguardedRoutesProceed(path: string, fromName: Option<string>, isLoggedIn: bool)
    requires path == "/" || path == "/test" || path == "/gemini"
    ensures BeforeEnter(path, fromName, isLoggedIn) == Proceed
  {
  }

  /** A redirect never leads to a second one: with the same origin and flag,
      the guard of the redirect target lets the navigation proceed. */
  lemma RedirectSettles(path: string, fromName: Option<string>, isLoggedIn: bool)
    requires BeforeEnter(path, fromName, isLoggedIn).RedirectTo?
    ensures BeforeEnter(BeforeEnter(path, fromName, isLoggedIn).path, fromName, isLoggedIn) == Proceed
  {
  }

  /** The global guard: it asks the auth store for the flag, changes no state
      and never blocks or redirects. */
  method BeforeEach(auth: Auth.AuthStore) returns (v: Verdict)
    ensures v == Proceed
  {
    var _ := auth.IsAuthenticated();
    v := Proceed;
  }

}
