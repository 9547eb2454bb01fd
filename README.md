# Lexiai client session and settings state, in Dafny

This project models the client-side state machine of the Lexiai
language-learning web client. The client is a Vue application with Pinia stores.
The model covers five parts:

- the token store (`jwtToken`, with save, get, delete and the validity check);
- the authentication flag (`isLoggedIn`, login, logout);
- the two request wrappers that every store action goes through. They build the
  Authorization header, choose the call shape by HTTP verb and handle failures;
- the user store, which mirrors `user`, `settings` and the `favorites` table;
- the route table and its navigation guards.

Every HTTP call is replaced by an input `Http.Outcome`. It is either a resolved
response (a status and a possibly-null body) or a failure: an HTTP error with a
status, a thrown string, or a transport error without a response. Each wrapper
also returns the exact request it hands to the HTTP client (`Http.Request`), so
the model states which endpoint, payload and headers each action sends.

Stores whose fields the code assigns in place are classes:

- `Jwt.JwtStore`;
- `Auth.AuthStore`, which holds the token store and the router;
- `UserStore.UserStore`, which holds the auth store.

Each state-changing method states its new state in terms of a pure function of
the old state. These functions are `Auth.LoggedOut`, `ServerRequest.SessionAfter`
and the `*Effect` functions of `UserStore`. The lemmas are stated about those
functions.

The router push made by `logout` and the `window.location.href` assignment made
by the settings wrapper are recorded in `Navigation.Router` and
`Navigation.Window`. They are not performed.

One behaviour matters throughout. The central wrapper absorbs a 401 while a
token is held: it logs out and returns `undefined` instead of throwing. The
callers therefore still run their local updates on that path.
`UserStore.UnauthorizedStillUpdates` states this for `saveLanguage` and
`toggleFavorite`. `UserStore.ProfileEffect` shows that on this path
`saveProfileSettings` overwrites username and email with `undefined`.

On these points the model follows the code:

- `isValidToken` returns false on every failed call and never deletes the token
  or loads a profile (src/stores/jwt.ts:21-46).
- `isAuthenticated` only reads the flag. It does not validate the token or cache
  a result (src/stores/auth.ts:10-12).
- `login` only sets the flag (src/stores/auth.ts:13-16).
- `toggleFavorite` changes the table only after the call returns normally. It
  does not update optimistically (src/stores/user.ts:86-104).

## Model

| member | source | states |
|---|---|---|
| GeminiConfig.Name | src/lib/gemini/config/config-types.ts:7-8 | every voice is sent as one of the five listed names |
| GeminiConfig.Parse | src/lib/gemini/config/config-types.ts:7-8 | exactly the five listed names are voices, and each names the voice it is read as |
| GeminiConfig.ParseName | src/lib/gemini/config/config-types.ts:7-8 | name and parse are inverse, so the enumeration has exactly five distinct voices |
| Http.RequestUrl | src/assets/composables/useServerRequest.ts:38-39 | the URL is the base URL, a colon, the port and the endpoint, each recoverable at its position |
| Http.BuildHeaders | src/assets/composables/useServerRequest.ts:28-31 | headers are the caller's keys plus Authorization; caller values win; without a caller Authorization it is `Bearer <token>` for a non-empty token and undefined otherwise |
| Http.WireHeaders | src/assets/composables/useServerRequest.ts:28-34 | exactly the defined header entries reach the wire, unchanged |
| Http.BearerOnWire | src/assets/composables/useServerRequest.ts:28-31 | without a caller Authorization, the header is on the wire iff a token is held, and then it is `Bearer <token>` |
| Http.CustomAuthorizationWins | src/assets/composables/useServerRequest.ts:28-31 | a caller-supplied Authorization makes the headers independent of the token |
| Http.BuildRequest | src/assets/composables/useServerRequest.ts:36-39 | the call has the verb, the URL and the headers above; it carries the payload iff the verb is POST, PUT or PATCH, and then carries it unchanged |
| Http.BodilessIgnoresPayload | src/assets/composables/useServerRequest.ts:36-39 | GET and DELETE calls do not depend on the payload argument |
| Jwt.ValidationRequest | src/stores/jwt.ts:28-32 | the validity check is a GET of `/api/jwt/validate` whose only header on the wire is the bearer token |
| Jwt.ValidationRequestIsWrapperRequest | src/stores/jwt.ts:28-32 | for a held token that call is the one the central wrapper builds for the same GET |
| Jwt.JwtStore.constructor | src/stores/jwt.ts:8-10 | the initial token is the empty string |
| Jwt.JwtStore.SaveToken | src/stores/jwt.ts:12-14 | the stored token becomes the argument, so a later GetToken returns it |
| Jwt.JwtStore.GetToken | src/stores/jwt.ts:15-17 | returns the stored token and changes nothing |
| Jwt.JwtStore.DeleteToken | src/stores/jwt.ts:18-20 | the stored token becomes the empty string |
| Jwt.JwtStore.IsValidToken | src/stores/jwt.ts:21-46 | with an empty token it returns false and makes no call; otherwise it makes the validation call and returns true iff that call resolves with status 200; every failure gives false without a throw; the token is never changed |
| Auth.LoggedOut | src/stores/auth.ts:17-23 | after logout the token is empty, the flag is false and `/login` was pushed on the router |
| Auth.LogoutIdempotent | src/stores/auth.ts:17-23 | a second logout leaves token and flag as the first did and only pushes `/login` again |
| Auth.AuthStore.constructor | src/stores/auth.ts:6-8 | the initial flag is false |
| Auth.AuthStore.IsAuthenticated | src/stores/auth.ts:10-12 | returns the flag and changes nothing |
| Auth.AuthStore.Login | src/stores/auth.ts:13-16 | the flag becomes true; the token store is untouched |
| Navigation.Router.Push | src/stores/auth.ts:22 | a router push appends its path to the recorded pushes |
| Navigation.Window.Assign | src/components/settings/serverRequest.ts:44 | assigning the location makes it the given path |
| Auth.AuthStore.Logout | src/stores/auth.ts:17-23 | the session becomes LoggedOut of the old session |
| ServerRequest.Completes | src/assets/composables/useServerRequest.ts:36-58 | a resolved call returns its response unchanged; the wrapper returns undefined iff the call failed with a 401 while a token was held; every other failure is rethrown as it came |
| ServerRequest.SessionAfter | src/assets/composables/useServerRequest.ts:45-49 | the absorbed 401 logs out; every other outcome leaves the session unchanged |
| ServerRequest.OtherFailuresRethrown | src/assets/composables/useServerRequest.ts:43-58 | a 401 without a token, any other status, a thrown string and a transport failure are all rethrown |
| ServerRequest.UnauthorizedEndsSession | src/assets/composables/useServerRequest.ts:45-49 | a 401 while a token is held never throws and always ends with an empty token and a false flag |
| ServerRequest.UseServerRequest | src/assets/composables/useServerRequest.ts:19-60 | sends BuildRequest for the token it read, completes as Completes says, and leaves the session as SessionAfter says |
| SettingsRequest.Completes | src/components/settings/serverRequest.ts:34-55 | a resolved call returns its response; every HTTP error and every thrown string returns undefined; only a transport failure is rethrown |
| SettingsRequest.WrappersDisagreeOnHttpErrors | src/components/settings/serverRequest.ts:41-47 | on an HTTP error the central wrapper throws unless it is the absorbed 401, while this wrapper always returns undefined |
| SettingsRequest.ServerRequest | src/components/settings/serverRequest.ts:16-56 | sends BuildRequest, completes as Completes says, moves the window to `/login` exactly on a 401, and never touches the token |
| UserStore.AdoptSettings | src/stores/user.ts:37-43 | adopting settings replaces them, and replaces favorites only when the settings carry favorites |
| UserStore.AdoptSettingsIdempotent | src/stores/user.ts:37-43 | adopting the same settings twice is adopting them once |
| UserStore.SaveUserEffect | src/stores/user.ts:34-44 | the user is always replaced; settings only when present; favorites only when the nested favorites are present |
| UserStore.ReceivedSettings | src/stores/user.ts:52-53 | settings are found exactly when the wrapper returned a response with a non-null body, and they are that body's settings |
| UserStore.FetchEffect | src/stores/user.ts:48-64 | the response's settings are adopted when present; a throw, an absorbed 401 or a response without settings change nothing; the user is never touched |
| UserStore.SaveLanguageEffect | src/stores/user.ts:68-85 | on normal return language and style become the arguments and every other field is kept; a throw changes nothing |
| UserStore.Toggled | src/stores/user.ts:94-99 | toggling on stores the key as true, toggling off removes it, and every other key keeps its entry |
| UserStore.ToggleEffect | src/stores/user.ts:86-104 | on normal return the favorites are Toggled; a throw changes nothing; user and settings are never touched |
| UserStore.LexiEffect | src/stores/user.ts:108-133 | voice and key change only on a 200 response whose body carries settings, and then they are copied from those settings; every other completion (a throw, no response, another status, a null body, a body without settings) changes nothing |
| UserStore.ProfileEffect | src/stores/user.ts:137-158 | username and email come from the response body, never from the arguments; the absorbed 401 sets both to undefined; a throw or a response with a null body changes nothing |
| UserStore.LastToggleWins | src/stores/user.ts:86-104 | after toggles that return normally, a key is present iff the last toggle on it was on (untoggled keys keep their entries), and every toggled key is stored as true |
| UserStore.UnauthorizedStillUpdates | src/stores/user.ts:68-99 | on the absorbed 401 the language and favorites updates still apply while the session is logged out |
| UserStore.UserStore.constructor | src/stores/user.ts:28-32 | user and settings start as empty records and favorites as an empty table |
| UserStore.UserStore.SaveUser | src/stores/user.ts:34-44 | the new mirror is SaveUserEffect of the old one |
| UserStore.UserStore.GetUser | src/stores/user.ts:45-47 | returns the user and changes nothing |
| UserStore.UserStore.FetchUserSettings | src/stores/user.ts:48-64 | sends GET `/api/users/settings`; the new mirror is FetchEffect and the session is SessionAfter |
| UserStore.UserStore.GetLanguageSettings | src/stores/user.ts:65-67 | returns the settings and changes nothing |
| UserStore.UserStore.SaveLanguage | src/stores/user.ts:68-85 | sends PATCH `/api/users/settings` with the language and style; the new mirror is SaveLanguageEffect and the session is SessionAfter |
| UserStore.UserStore.ToggleFavorite | src/stores/user.ts:86-104 | sends PATCH `/api/users/favorites` with the one key; the new mirror is ToggleEffect and the session is SessionAfter |
| UserStore.UserStore.GetFavorites | src/stores/user.ts:105-107 | returns the favorites and changes nothing |
| UserStore.UserStore.SaveLexiSettings | src/stores/user.ts:108-133 | sends PATCH `/api/users/settings` with the voice name and key; the new mirror is LexiEffect and the session is SessionAfter |
| UserStore.UserStore.GetLexiSettings | src/stores/user.ts:134-136 | returns the settings and changes nothing |
| UserStore.UserStore.SaveProfileSettings | src/stores/user.ts:137-158 | sends PATCH `/api/users/update` with username and email; the new mirror is ProfileEffect and the session is SessionAfter |
| UserStore.UserStore.GetProfileSettings | src/stores/user.ts:159-161 | returns the user and changes nothing |
| UserStore.UserStore.SaveSecuritySettings | src/stores/user.ts:162-179 | sends PATCH `/api/users/security` with the password; the mirror is unchanged and the session is SessionAfter |
| Routes.GuestGuard | src/router/index.ts:21-41 | the `/register` and `/login` guards redirect to `/lexiai` iff the origin is not named `lexiai` and the user is logged in; otherwise navigation proceeds |
| Routes.MemberGuard | src/router/index.ts:57-77 | the `/lexiai` and `/settings` guards redirect to `/login` iff the origin is not named `login` and the user is logged out; otherwise navigation proceeds |
| Routes.Lookup | src/router/index.ts:11-79 | the match is the first route of the table with the requested path; no match means no route has that path |
| Routes.BeforeEnter | src/router/index.ts:11-79 | `/register` and `/login` run the guest guard, `/lexiai` and `/settings` run the member guard, and every other path proceeds |
| Routes.NoRouteNamedLexiai | src/router/index.ts:13-78 | no route is named `lexiai`, and `/lexiai` resolves to the route named `gemini` |
| Routes.GuestGuardReduces | src/router/index.ts:21-41 | from any origin the table can produce, the `/register` and `/login` guards redirect iff the user is logged in |
| Routes.UnguardedRoutesProceed | src/router/index.ts:12-52 | navigation to `/`, `/test` and `/gemini` always proceeds |
| Routes.RedirectSettles | src/router/index.ts:21-77 | with the same origin and flag, the target of a guard redirect lets navigation proceed, so redirects never chain |
| Routes.BeforeEach | src/router/index.ts:82-85 | the global guard reads the flag, changes nothing and always lets navigation proceed |

## Left out

- The HTTP client, the environment variables and console logging. Each call is an input outcome. The base URL and port are opaque strings.
- Concurrency between overlapping asynchronous actions, where the last response to resolve wins. Each action is one atomic step over a given outcome.
- Persisting the token store to browser storage. The token is always a string; a missing or null persisted value is not modelled.
- Vue Router internals beyond the route table, first-match lookup by path and the guards. `router.push` is recorded in a list and `window.location.href` in a field.
- Aliasing between objects. `saveUser` and `fetchUserSettings` store one favorites object as both `favorites` and `settings.favorites`, and `saveUser` also keeps it under `user.settings`. In the code, later in-place updates by `toggleFavorite` and `saveLanguage` therefore show through every alias. The model uses values, so each field changes alone.
- The getters return shallow copies. With values, a copy never changes when the store does, which is what the copies are for.
- `isValidToken` reads `decoded_token` only to log it, so that read is not modelled.
- `saveSecuritySettings` checks `response.data.user` only to choose a log message, so the response body has no `user` field.
- The router's own path matching. The model matches paths by exact string and takes the first route with the path. The router's matcher also ignores case and a trailing slash. Adding a route with the name of an earlier route may replace that route, which would remove `/gemini`. The model keeps both routes, and navigation to `/gemini` proceeds either way.
- The guards receive the name of the route being left, or `undefined` on the first navigation. The redirect target is the path a guard returns. The destination route itself is not examined.
- `src/composables/useGenAI.ts` is not part of this model. It is a thin wrapper over a generative-AI SDK that is not visible here.
- `tailwind.config.js` is not part of this model; it is styling configuration.
- Of `src/lib/gemini/config/config-types.ts`, only the `VoiceName` enumeration is modelled. The other types alias types of an external SDK.
- An absent custom-headers argument is the empty map, because spreading `undefined` adds nothing.
