/**
 The authentication context: a session id fixed when the provider mounts, an
 optional signed-in user, and the two cookies that persist them.

 The cookie jar is a map from cookie names to values. Fresh identifiers, the
 clock, and JSON encoding and decoding are inputs.
 */
module Auth {
  import opened Text

  datatype User = User(id: string, name: string, email: string, avatar: Option<string>,
                       sessionId: string, createdAt: string)

  /** What `login` is given: a user without id, session id and creation time. */
  datatype Profile = Profile(name: string, email: string, avatar: Option<string>)

  type Cookies = map<string, string>

  const SessionCookie: string := "movesmart_session"
  const UserCookie: string := "movesmart_user"

  /** The result of `JSON.parse` on the stored user: a syntax error, or a user or `null`. */
  datatype ParseResult = Malformed | Parsed(value: Option<User>)

  datatype AuthState = AuthState(user: Option<User>, sessionId: string, cookies: Cookies)

  /** `isAuthenticated`: `!!user`. */
  predicate IsAuthenticated(state: AuthState) {
    state.user.Some?
  }

  /** The cookie's value as `Cookies.get` returns it (absent is `undefined`). */
  function GetCookie(cookies: Cookies, name: string): Option<string> {
    if name in cookies then Some(cookies[name]) else None
  }

  /** The session id: the stored one when it is non-empty, else the fresh one. */
  function SelectSessionId(cookies: Cookies, freshId: string): (r: string)
    ensures Truthy(GetCookie(cookies, SessionCookie)) ==> r == cookies[SessionCookie]
    ensures !Truthy(GetCookie(cookies, SessionCookie)) ==> r == freshId
    ensures freshId != "" ==> r != ""
  {
    var existing := GetCookie(cookies, SessionCookie);
    if Truthy(existing) then existing.value else freshId
  }

  /**
   The provider after mounting: the session id is chosen and written back,
   then a non-empty stored user is parsed. A parse error drops the stored
   user and leaves nobody signed in.
   */
  function Mount(cookies: Cookies, freshId: string, parse: string -> ParseResult): (r: AuthState)
    ensures r.sessionId == SelectSessionId(cookies, freshId)
    ensures SessionCookie in r.cookies && r.cookies[SessionCookie] == r.sessionId
    ensures !Truthy(GetCookie(cookies, UserCookie)) ==> r.user.None? && r.cookies == cookies[SessionCookie := r.sessionId]
    ensures Truthy(GetCookie(cookies, UserCookie)) && parse(cookies[UserCookie]).Malformed? ==>
              r.user.None? && r.cookies == cookies[SessionCookie := r.sessionId] - {UserCookie}
    ensures Truthy(GetCookie(cookies, UserCookie)) && parse(cookies[UserCookie]).Parsed? ==>
              r.user == parse(cookies[UserCookie]).value && r.cookies == cookies[SessionCookie := r.sessionId]
  {
    var sessionId := SelectSessionId(cookies, freshId);
    var jar := cookies[SessionCookie := sessionId];
    var stored := GetCookie(jar, UserCookie);
    if Truthy(stored) then
      match parse(stored.value)
      case Malformed => AuthState(None, sessionId, jar - {UserCookie})
      case Parsed(u) => AuthState(u, sessionId, jar)
    else AuthState(None, sessionId, jar)
  }

  /** `login`: a new user in this session, stored as JSON. */
  function Login(state: AuthState, profile: Profile, freshId: string, now: string,
                 stringify: User -> string): (r: AuthState)
    ensures IsAuthenticated(r)
    ensures r.user.value.name == profile.name && r.user.value.email == profile.email
    ensures r.user.value.avatar == profile.avatar
    ensures r.user.value.sessionId == state.sessionId == r.sessionId
    ensures r.cookies == state.cookies[UserCookie := stringify(r.user.value)]
  {
    var user := User(freshId, profile.name, profile.email, profile.avatar, state.sessionId, now);
    AuthState(Some(user), state.sessionId, state.cookies[UserCookie := stringify(user)])
  }

  /** `logout`: nobody signed in, the stored user removed, the session kept. */
  function Logout(state: AuthState): (r: AuthState)
    ensures !IsAuthenticated(r)
    ensures r.sessionId == state.sessionId
    ensures UserCookie !in r.cookies
    ensures forall k :: k in state.cookies && k != UserCookie ==> k in r.cookies && r.cookies[k] == state.cookies[k]
  {
    AuthState(None, state.sessionId, state.cookies - {UserCookie})
  }

  /** JSON encoding of users reads back: every encoding is non-empty and parses to the user. */
  ghost predicate JsonRoundTrip(stringify: User -> string, parse: string -> ParseResult) {
    forall u :: stringify(u) != "" && parse(stringify(u)) == Parsed(Some(u))
  }

  /** Remounting after a login restores the same user and the same session. */
  lemma LoginSurvivesReload(state: AuthState, profile: Profile, freshId: string, now: string,
                            otherId: string, stringify: User -> string, parse: string -> ParseResult)
    requires JsonRoundTrip(stringify, parse)
    requires SessionCookie in state.cookies && state.cookies[SessionCookie] == state.sessionId
    requires state.sessionId != ""
    ensures var after := Login(state, profile, freshId, now, stringify);
            var reloaded := Mount(after.cookies, otherId, parse);
            reloaded.user == after.user && reloaded.sessionId == state.sessionId
  {
    var after := Login(state, profile, freshId, now, stringify);
    assert after.cookies[SessionCookie] == state.sessionId;
    assert parse(stringify(after.user.value)) == Parsed(after.user);
  }

  /** Remounting after a logout signs nobody in but keeps the session. */
  lemma LogoutSurvivesReload(state: AuthState, otherId: string, parse: string -> ParseResult)
    requires SessionCookie in state.cookies && state.cookies[SessionCookie] == state.sessionId
    requires state.sessionId != ""
    ensures var reloaded := Mount(Logout(state).cookies, otherId, parse);
            !IsAuthenticated(reloaded) && reloaded.sessionId == state.sessionId
  {
    assert Logout(state).cookies[SessionCookie] == state.sessionId;
  }

  /** A fresh mount with no cookies starts a new, signed-out session under the fresh id. */
  lemma FirstVisit(freshId: string, parse: string -> ParseResult)
    ensures Mount(map[], freshId, parse) == AuthState(None, freshId, map[SessionCookie := freshId])
  {
  }

  /**
   `isAuthenticated` across the provider's life: after mounting it holds
   exactly when the stored user parses to a user; login sets it and logout
   clears it, whatever the state before.
   */
  lemma AuthenticatedLifecycle(cookies: Cookies, freshId: string, parse: string -> ParseResult,
                               state: AuthState, profile: Profile, now: string, stringify: User -> string)
    ensures IsAuthenticated(Mount(cookies, freshId, parse)) <==>
              Truthy(GetCookie(cookies, UserCookie)) && parse(cookies[UserCookie]).Parsed?
              && parse(cookies[UserCookie]).value.Some?
    ensures IsAuthenticated(Login(state, profile, freshId, now, stringify))
    ensures !IsAuthenticated(Logout(state))
  {
  }
}
