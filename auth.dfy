/** The authentication context (context/auth-context.tsx): the one long-lived
    piece of mutable client state. It holds the current user, session and
    profile and a loading flag, and three kinds of event change them: the
    answer to the initial session request, the answers to profile queries and
    the gateway's auth-state-change notifications. The gateway itself is not
    modelled: its answers are parameters of the event methods, and the calls
    made on it are recorded, in order, in `calls`. */
module Auth {
  import opened Wrappers
  import JsString

  datatype User = User(id: string, email: string)

  /** A gateway session; the gateway's session type always carries its user. */
  datatype Session = Session(accessToken: string, user: User)

  /** A row of the `profiles` table. The role is kept as the stored text,
      because the pages compare it with the literal `'admin'`. */
  datatype Profile = Profile(id: string, email: string, role: string,
                             fullName: Option<string>, phone: Option<string>,
                             address: Option<string>, avatarUrl: Option<string>)

  /** The gateway's answer to the profile query made by `fetchProfile`. */
  datatype ProfileAnswer =
    | ProfileRow(row: Profile)  // no error: the returned row
    | ProfileError              // an error object is returned
    | ProfileThrown             // the query throws

  /** The gateway's answer to `getSession`: a session or none, or an error,
      whether returned or thrown, with its optional message and code. */
  datatype SessionAnswer =
    | SessionOk(session: Option<Session>)
    | SessionFailed(message: Option<string>, code: Option<string>)

  /** A call the provider makes on the gateway. */
  datatype GatewayCall = GetSession | QueryProfile(userId: string) | GatewaySignOut | Subscribe

  /** What consumers read through `useAuth` (the `signOut` function aside). */
  datatype AuthContextValue = AuthContextValue(user: Option<User>, session: Option<Session>,
                                               profile: Option<Profile>, loading: bool)

  const UseAuthOutsideProvider := "useAuth must be used within an AuthProvider"

  /** An initialisation error that means the stored refresh token is unusable:
      its message mentions "Refresh Token" or its code is `invalid_grant`. */
  predicate IsInvalidRefresh(message: Option<string>, code: Option<string>): (b: bool)
    ensures b <==> (message.Some? && exists i :: JsString.OccursAt(message.value, "Refresh Token", i))
                   || code == Some("invalid_grant")
  {
    if message.Some? then
      JsString.ContainsAt(message.value, "Refresh Token");
      JsString.Contains(message.value, "Refresh Token") || code == Some("invalid_grant")
    else
      code == Some("invalid_grant")
  }

  /** `session?.user ?? null`. */
  function UserOf(session: Option<Session>): Option<User>
  {
    if session.Some? then Some(session.value.user) else None
  }

  /** `useAuth()`: the provider's value, or the error it throws when no
      provider encloses the caller. */
  function UseAuth(context: Option<AuthContextValue>): (r: Result<AuthContextValue, string>)
    ensures r.Ok? <==> context.Some?
    ensures r.Ok? ==> r.value == context.value
    ensures r.Err? ==> r.error == UseAuthOutsideProvider
  {
    if context.None? then Err(UseAuthOutsideProvider) else Ok(context.value)
  }

  class AuthProvider {
    var user: Option<User>
    var session: Option<Session>
    var profile: Option<Profile>
    var loading: bool
    /** Whether the auth-state-change subscription has been made. */
    var subscribed: bool
    /** The gateway calls made so far, oldest first. */
    var calls: seq<GatewayCall>

    /** The user is always the session's user, and loading ends exactly when
        initialisation has subscribed to auth-state changes. */
    ghost predicate Valid()
      reads this
    {
      user == UserOf(session) && (loading <==> !subscribed)
    }

    function Value(): AuthContextValue
      reads this
    {
      AuthContextValue(user, session, profile, loading)
    }

    /** The provider's initial state: nobody signed in, still loading. */
    constructor ()
      ensures Valid()
      ensures user == None && session == None && profile == None && loading
      ensures !subscribed && calls == []
    {
      user, session, profile, loading := None, None, None, true;
      subscribed, calls := false, [];
    }

    /** `fetchProfile(userId)`: a returned row becomes the profile; an
        error, returned or thrown, leaves the profile as it was (it is not
        reset to none). */
    method FetchProfile(userId: string, answer: ProfileAnswer)
      modifies this`profile, this`calls
      ensures profile == (if answer.ProfileRow? then Some(answer.row) else old(profile))
      ensures calls == old(calls) + [QueryProfile(userId)]
    {
      calls := calls + [QueryProfile(userId)];
      if answer.ProfileRow? {
        profile := Some(answer.row);
      }
    }

    /** `initializeAuth()`, run once while loading. A session answer sets the
        session and its user and, when there is a user, fetches the profile
        before loading ends. An invalid-refresh error signs out at the gateway
        once and clears session, user and profile; any other error changes
        none of them. Every outcome ends loading and subscribes. */
    method InitializeAuth(answer: SessionAnswer, profileAnswer: ProfileAnswer)
      requires Valid() && loading
      modifies this
      ensures Valid() && !loading && subscribed
      ensures answer.SessionOk? ==>
        && session == answer.session
        && user == UserOf(answer.session)
        && profile == (if answer.session.Some? && profileAnswer.ProfileRow? then Some(profileAnswer.row)
                       else old(profile))
        && calls == old(calls) + [GetSession]
                    + (if answer.session.Some? then [QueryProfile(answer.session.value.user.id)] else [])
                    + [Subscribe]
      ensures answer.SessionFailed? && IsInvalidRefresh(answer.message, answer.code) ==>
        && session == None && user == None && profile == None
        && calls == old(calls) + [GetSession, GatewaySignOut, Subscribe]
      ensures answer.SessionFailed? && !IsInvalidRefresh(answer.message, answer.code) ==>
        && session == old(session) && user == old(user) && profile == old(profile)
        && calls == old(calls) + [GetSession, Subscribe]
    {
      calls := calls + [GetSession];
      match answer {
        case SessionOk(s) =>
          session := s;
          user := UserOf(s);
          if s.Some? {
            FetchProfile(s.value.user.id, profileAnswer);
          }
        case SessionFailed(message, code) =>
          if IsInvalidRefresh(message, code) {
            calls := calls + [GatewaySignOut];
            session := None;
            user := None;
            profile := None;
          }
      }
      loading := false;
      calls := calls + [Subscribe];
      subscribed := true;
    }

    /** The auth-state-change callback. A session sets the session and its
        user and refetches the profile; no session clears user and profile.
        Either way loading is over afterwards. */
    method OnAuthStateChange(newSession: Option<Session>, profileAnswer: ProfileAnswer)
      requires Valid() && subscribed
      modifies this
      ensures Valid() && !loading && subscribed
      ensures session == newSession && user == UserOf(newSession)
      ensures newSession.Some? ==>
        && profile == (if profileAnswer.ProfileRow? then Some(profileAnswer.row) else old(profile))
        && calls == old(calls) + [QueryProfile(newSession.value.user.id)]
      ensures newSession.None? ==> profile == None && calls == old(calls)
    {
      session := newSession;
      user := UserOf(newSession);
      if newSession.Some? {
        FetchProfile(newSession.value.user.id, profileAnswer);
      } else {
        profile := None;
      }
      loading := false;
    }

    /** `signOut()`: signs out at the gateway and navigates to the login page.
        It leaves user, session and profile to the auth-state-change event
        that the gateway sends afterwards. */
    method SignOut() returns (target: string)
      modifies this`calls
      ensures target == "/login"
      ensures calls == old(calls) + [GatewaySignOut]
    {
      calls := calls + [GatewaySignOut];
      target := "/login";
    }
  }
}
