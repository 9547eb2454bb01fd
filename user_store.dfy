/** The local mirror of the user's profile and settings. Every action other
    than `SaveUser` first goes through the central request wrapper and then
    updates the mirror; a 401 that the wrapper absorbs returns normally, so
    the action's local update still runs on that path. */
module UserStore {
  import opened Wrappers
  import opened Http
  import opened GeminiConfig
  import opened Auth
  import opened ServerRequest

  /** A settings record. The store starts from an empty object and the server
      may omit any field, so every field may be undefined. */
  datatype Settings = Settings(
    languageId: Option<string>,
    level: Option<string>,
    topicId: Option<string>,
    styleId: Option<string>,
    favorites: Option<map<string, bool>>,
    apiKey: Option<string>,
    voiceName: Option<VoiceName>)

  /** A user record, with the same caveat. */
  datatype User = User(
    id: Option<string>,
    email: Option<string>,
    username: Option<string>,
    password: Option<string>,
    createdAt: Option<string>,
    settings: Option<Settings>)

  /** The fields of a response body the actions read. */
  datatype Body = Body(settings: Option<Settings>, username: Option<string>, email: Option<string>)

  const EmptySettings: Settings := Settings(None, None, None, None, None, None, None)
  const EmptyUser: User := User(None, None, None, None, None, None)

  const SettingsEndpoint: string := "/api/users/settings"
  const FavoritesEndpoint: string := "/api/users/favorites"
  const UpdateEndpoint: string := "/api/users/update"
  const SecurityEndpoint: string := "/api/users/security"

  /** The three fields of the store. */
  datatype Mirror = Mirror(user: User, settings: Settings, favorites: map<string, bool>)

  /** Takes a settings record in: settings are replaced, and favorites too
      when the record carries them. */
  function AdoptSettings(m: Mirror, s: Settings): (r: Mirror)
    ensures r.user == m.user && r.settings == s
    ensures s.favorites.Some? ==> r.favorites == s.favorites.value
    ensures s.favorites.None? ==> r.favorites == m.favorites
  {
    if s.favorites.Some? then m.(settings := s, favorites := s.favorites.value)
    else m.(settings := s)
  }

  /** Taking the same settings in twice is taking them in once. */
  lemma AdoptSettingsIdempotent(m: Mirror, s: Settings)
    ensures AdoptSettings(AdoptSettings(m, s), s) == AdoptSettings(m, s)
  {
  }

  /** `saveUser`: the user is always replaced; settings and favorites only
      when the nested parts are present. */
  function SaveUserEffect(m: Mirror, u: User): (r: Mirror)
    ensures r.user == u
    ensures u.settings.None? ==> r.settings == m.settings && r.favorites == m.favorites
    ensures u.settings.Some? ==> r.settings == u.settings.value
    ensures u.settings.Some? && u.settings.value.favorites.Some? ==> r.favorites == u.settings.value.favorites.value
    ensures (u.settings.None? || u.settings.value.favorites.None?) ==> r.favorites == m.favorites
  {
    if u.settings.Some? then AdoptSettings(m.(user := u), u.settings.value) else m.(user := u)
  }

  /** The settings carried by a response the wrapper returned, if any. */
  function ReceivedSettings(c: Completion<Body>): (s: Option<Settings>)
    ensures s.Some? ==> c.Returned? && c.value.Some? && c.value.value.data.Some?
                        && c.value.value.data.value.settings == s
    ensures c.Returned? && c.value.Some? && c.value.value.data.Some? ==> s == c.value.value.data.value.settings
  {
    if c.Returned? && c.value.Some? && c.value.value.data.Some? then c.value.value.data.value.settings
    else None
  }

  /** `fetchUserSettings`: adopts the settings of the response when there are
      any; a throw, an absorbed 401 or a response without settings change
      nothing. */
  function FetchEffect(m: Mirror, c: Completion<Body>): (r: Mirror)
    ensures r.user == m.user
    ensures (c.Threw? || c == Returned(None)) ==> r == m
    ensures ReceivedSettings(c).None? ==> r == m
    ensures ReceivedSettings(c).Some? ==> r == AdoptSettings(m, ReceivedSettings(c).value)
  {
    match ReceivedSettings(c)
    case Some(s) => AdoptSettings(m, s)
    case None => m
  }

  /** `saveLanguage`: on normal return the language and style become the
      arguments and nothing else changes; on a throw nothing changes. */
  function SaveLanguageEffect(m: Mirror, languageId: string, styleId: string, c: Completion<Body>): (r: Mirror)
    ensures r.user == m.user && r.favorites == m.favorites
    ensures c.Threw? ==> r == m
    ensures !c.Threw? ==> r.settings.languageId == Some(languageId) && r.settings.styleId == Some(styleId)
    ensures r.settings.(languageId := m.settings.languageId, styleId := m.settings.styleId) == m.settings
  {
    if c.Threw? then m
    else m.(settings := m.settings.(languageId := Some(languageId), styleId := Some(styleId)))
  }

  /** The favorites table after one toggle: `true` adds the key, `false`
      deletes it; every other key keeps its entry. */
  function Toggled(favorites: map<string, bool>, topicId: string, isFavorite: bool): (r: map<string, bool>)
    ensures isFavorite ==> topicId in r && r[topicId]
    ensures !isFavorite ==> topicId !in r
    ensures forall k :: k != topicId ==> (k in r <==> k in favorites)
    ensures forall k :: k in favorites && k != topicId ==> r[k] == favorites[k]
  {
    if isFavorite then favorites[topicId := isFavorite] else favorites - {topicId}
  }

  /** `toggleFavorite`: toggles the table on normal return; on a throw nothing
      changes. */
  function ToggleEffect(m: Mirror, topicId: string, isFavorite: bool, c: Completion<Body>): (r: Mirror)
    ensures r.user == m.user && r.settings == m.settings
    ensures c.Threw? ==> r == m
    ensures !c.Threw? ==> r.favorites == Toggled(m.favorites, topicId, isFavorite)
  {
    if c.Threw? then m else m.(favorites := Toggled(m.favorites, topicId, isFavorite))
  }

  /** `saveLexiSettings`: voice and key are copied from the response's
      settings, and only on a 200 response that carries settings. */
  function LexiEffect(m: Mirror, c: Completion<Body>): (r: Mirror)
    ensures r.user == m.user && r.favorites == m.favorites
    ensures r.settings != m.settings ==>
              c.Returned? && c.value.Some? && c.value.value.status == 200 && ReceivedSettings(c).Some?
    ensures r.settings.(voiceName := m.settings.voiceName, apiKey := m.settings.apiKey) == m.settings
    ensures c.Returned? && c.value.Some? && c.value.value.status == 200 && ReceivedSettings(c).Some? ==>
              r.settings.voiceName == ReceivedSettings(c).value.voiceName &&
              r.settings.apiKey == ReceivedSettings(c).value.apiKey
  {
    if c.Returned? && c.value.Some? && c.value.value.status == 200 && ReceivedSettings(c).Some? then
      var s := ReceivedSettings(c).value;
      m.(settings := m.settings.(voiceName := s.voiceName, apiKey := s.apiKey))
    else m
  }

  /** `saveProfileSettings`: username and email come from the response body,
      never from the arguments (the function has none). An absorbed 401
      leaves no response, so both become undefined; a response whose body is
      null makes the copy fail, and the failure is caught with nothing
      changed. */
  function ProfileEffect(m: Mirror, c: Completion<Body>): (r: Mirror)
    ensures r.settings == m.settings && r.favorites == m.favorites
    ensures r.user.(username := m.user.username, email := m.user.email) == m.user
    ensures c.Threw? ==> r == m
    ensures c == Returned(None) ==> r.user.username == None && r.user.email == None
    ensures c.Returned? && c.value.Some? && c.value.value.data.None? ==> r == m
    ensures c.Returned? && c.value.Some? && c.value.value.data.Some? ==>
              r.user.username == c.value.value.data.value.username &&
              r.user.email == c.value.value.data.value.email
  {
    match c
    case Threw(_) => m
    case Returned(None) => m.(user := m.user.(username := None, email := None))
    case Returned(Some(response)) =>
      match response.data
      case None => m
      case Some(body) => m.(user := m.user.(username := body.username, email := body.email))
  }

  /** A toggle call that returned normally. */
  datatype ToggleCall = ToggleCall(topicId: string, isFavorite: bool)

  /** The table after a run of toggles that all returned normally, applied in
      order. */
  function AfterToggles(favorites: map<string, bool>, calls: seq<ToggleCall>): map<string, bool>
    decreases |calls|
  {
    if calls == [] then favorites
    else
      var last := calls[|calls| - 1];
      Toggled(AfterToggles(favorites, calls[..|calls| - 1]), last.topicId, last.isFavorite)
  }

  /** The flag of the last call in `calls` on `topicId`, if there is one. */
  function LastCallOn(calls: seq<ToggleCall>, topicId: string): Option<bool>
    decreases |calls|
  {
    if calls == [] then None
    else if calls[|calls| - 1].topicId == topicId then Some(calls[|calls| - 1].isFavorite)
    else LastCallOn(calls[..|calls| - 1], topicId)
  }

  /** Last toggle wins: after a run of toggles a key is in the table exactly
      when the last toggle on it said `true` (or, untoggled, when it was
      there before), and a toggled key is always stored as `true`. */
  lemma {:induction false} LastToggleWins(favorites: map<string, bool>, calls: seq<ToggleCall>, topicId: string)
    ensures topicId in AfterToggles(favorites, calls) <==>
              (if LastCallOn(calls, topicId).Some? then LastCallOn(calls, topicId).value else topicId in favorites)
    ensures topicId in AfterToggles(favorites, calls) ==>
              AfterToggles(favorites, calls)[topicId] ==
                (if LastCallOn(calls, topicId).Some? then true else favorites[topicId])
    decreases |calls|
  {
    if calls != [] && calls[|calls| - 1].topicId != topicId {
      LastToggleWins(favorites, calls[..|calls| - 1], topicId);
    }
  }

  /** On the absorbed 401 the local updates of `saveLanguage` and
      `toggleFavorite` still run, although the session is closed. */
  lemma UnauthorizedStillUpdates(s: Session, m: Mirror, languageId: string, styleId: string,
                                 topicId: string, isFavorite: bool)
    requires s.token != ""
    ensures var c := Completes<Body>(s.token, Failed(HttpStatus(401)));
            SaveLanguageEffect(m, languageId, styleId, c).settings.languageId == Some(languageId) &&
            ToggleEffect(m, topicId, isFavorite, c).favorites == Toggled(m.favorites, topicId, isFavorite) &&
            !SessionAfter<Body>(s, Failed(HttpStatus(401))).loggedIn
  {
  }

  /** A JSON object with one entry. */
  function Entry(key: string, value: Json): (j: Json)
    ensures j.JObj? && j.fields.Keys == {key} && j.fields[key] == value
  {
    JObj(map[key := value])
  }

  class UserStore {
    var user: User
    var settings: Settings
    var favorites: map<string, bool>
    const auth: AuthStore
    const env: Env

    ghost function State(): Mirror
      reads this
    {
      Mirror(user, settings, favorites)
    }

    constructor (auth: AuthStore, env: Env)
      ensures this.auth == auth && this.env == env
      ensures State() == Mirror(EmptyUser, EmptySettings, map[])
    {
      this.auth := auth;
      this.env := env;
      user := EmptyUser;
      settings := EmptySettings;
      favorites := map[];
    }

    method SaveUser(u: User)
      modifies this
      ensures State() == SaveUserEffect(old(State()), u)
    {
      user := u;
      if u.settings.Some? {
        settings := u.settings.value;
        if u.settings.value.favorites.Some? {
          favorites := u.settings.value.favorites.value;
        }
      }
    }

    method GetUser() returns (u: User)
      ensures u == user
    {
      u := user;
    }

    method FetchUserSettings(outcome: Outcome<Body>) returns (sent: Request)
      modifies this, auth, auth.jwt, auth.router
      ensures sent == BuildRequest(env, old(auth.jwt.jwtToken), Get, SettingsEndpoint, None, map[])
      ensures auth.State() == SessionAfter(old(auth.State()), outcome)
      ensures State() == FetchEffect(old(State()), Completes(old(auth.jwt.jwtToken), outcome))
    {
      var c;
      sent, c := UseServerRequest(auth, env, Get, SettingsEndpoint, None, map[], outcome);
      if c.Returned? && c.value.Some? && c.value.value.data.Some? && c.value.value.data.value.settings.Some? {
        settings := c.value.value.data.value.settings.value;
        if settings.favorites.Some? {
          favorites := settings.favorites.value;
        }
      }
    }

    method GetLanguageSettings() returns (s: Settings)
      ensures s == settings
    {
      s := settings;
    }

    method SaveLanguage(languageId: string, styleId: string, outcome: Outcome<Body>) returns (sent: Request)
      modifies this, auth, auth.jwt, auth.router
      ensures sent == BuildRequest(env, old(auth.jwt.jwtToken), Patch, SettingsEndpoint,
                                   Some(Entry("settings", JObj(map["language_id" := JStr(languageId),
                                                                   "style_id" := JStr(styleId)]))), map[])
      ensures auth.State() == SessionAfter(old(auth.State()), outcome)
      ensures State() == SaveLanguageEffect(old(State()), languageId, styleId, Completes(old(auth.jwt.jwtToken), outcome))
    {
      var payload := Entry("settings", JObj(map["language_id" := JStr(languageId), "style_id" := JStr(styleId)]));
      var c;
      sent, c := UseServerRequest(auth, env, Patch, SettingsEndpoint, Some(payload), map[], outcome);
      if !c.Threw? {
        settings := settings.(languageId := Some(languageId));
        settings := settings.(styleId := Some(styleId));
      }
    }

    method ToggleFavorite(topicId: string, isFavorite: bool, outcome: Outcome<Body>) returns (sent: Request)
      modifies this, auth, auth.jwt, auth.router
      ensures sent == BuildRequest(env, old(auth.jwt.jwtToken), Patch, FavoritesEndpoint,
                                   Some(Entry("favorites", Entry(topicId, JBool(isFavorite)))), map[])
      ensures auth.State() == SessionAfter(old(auth.State()), outcome)
      ensures State() == ToggleEffect(old(State()), topicId, isFavorite, Completes(old(auth.jwt.jwtToken), outcome))
    {
      var c;
      sent, c := UseServerRequest(auth, env, Patch, FavoritesEndpoint,
                                  Some(Entry("favorites", Entry(topicId, JBool(isFavorite)))), map[], outcome);
      if !c.Threw? {
        if isFavorite {
          favorites := favorites[topicId := isFavorite];
        } else {
          favorites := favorites - {topicId};
        }
      }
    }

    method GetFavorites() returns (f: map<string, bool>)
      ensures f == favorites
    {
      f := favorites;
    }

    method SaveLexiSettings(voiceName: VoiceName, apiKey: string, outcome: Outcome<Body>) returns (sent: Request)
      modifies this, auth, auth.jwt, auth.router
      ensures sent == BuildRequest(env, old(auth.jwt.jwtToken), Patch, SettingsEndpoint,
                                   Some(Entry("settings", JObj(map["voice_name" := JStr(Name(voiceName)),
                                                                   "api_key" := JStr(apiKey)]))), map[])
      ensures auth.State() == SessionAfter(old(auth.State()), outcome)
      ensures State() == LexiEffect(old(State()), Completes(old(auth.jwt.jwtToken), outcome))
    {
      var payload := Entry("settings", JObj(map["voice_name" := JStr(Name(voiceName)), "api_key" := JStr(apiKey)]));
      var c;
      sent, c := UseServerRequest(auth, env, Patch, SettingsEndpoint, Some(payload), map[], outcome);
      if c.Returned? && c.value.Some? && c.value.value.status == 200 {
        // A null body makes the settings lookup fail; the failure is caught.
        if c.value.value.data.Some? && c.value.value.data.value.settings.Some? {
          var s := c.value.value.data.value.settings.value;
          settings := settings.(voiceName := s.voiceName);
          settings := settings.(apiKey := s.apiKey);
        }
      }
    }

    method GetLexiSettings() returns (s: Settings)
      ensures s == settings
    {
      s := settings;
    }

    method SaveProfileSettings(username: string, email: string, outcome: Outcome<Body>) returns (sent: Request)
      modifies this, auth, auth.jwt, auth.router
      ensures sent == BuildRequest(env, old(auth.jwt.jwtToken), Patch, UpdateEndpoint,
                                   Some(JObj(map["username" := JStr(username), "email" := JStr(email)])), map[])
      ensures auth.State() == SessionAfter(old(auth.State()), outcome)
      ensures State() == ProfileEffect(old(State()), Completes(old(auth.jwt.jwtToken), outcome))
    {
      var c;
      sent, c := UseServerRequest(auth, env, Patch, UpdateEndpoint,
                                  Some(JObj(map["username" := JStr(username), "email" := JStr(email)])), map[], outcome);
      match c
      case Threw(_) =>
      case Returned(None) =>
        user := user.(username := None);
        user := user.(email := None);
      case Returned(Some(response)) =>
        // A null body makes the copy fail before any field is written.
        if response.data.Some? {
          user := user.(username := response.data.value.username);
          user := user.(email := response.data.value.email);
        }
    }

    method GetProfileSettings() returns (u: User)
      ensures u == user
    {
      u := user;
    }

    method SaveSecuritySettings(password: string, outcome: Outcome<Body>) returns (sent: Request)
      modifies this, auth, auth.jwt, auth.router
      ensures sent == BuildRequest(env, old(auth.jwt.jwtToken), Patch, SecurityEndpoint,
                                   Some(Entry("password", JStr(password))), map[])
      ensures auth.State() == SessionAfter(old(auth.State()), outcome)
      ensures State() == old(State())
    {
      var c;
      sent, c := UseServerRequest(auth, env, Patch, SecurityEndpoint, Some(Entry("password", JStr(password))), map[], outcome);
    }
  }

}
