/** Event sequences through the authentication context, each starting from
    a fresh provider, and what the admin guard then decides. They tie the
    provider's event handlers to the guard over a whole page visit. */
module Scenarios {
  import opened Wrappers
  import opened Auth
  import AdminGuard

  /** What the admin guard decides from a provider's current value. */
  function GuardOf(value: AuthContextValue): AdminGuard.Decision
  {
    AdminGuard.Decide(value.loading, value.user, value.profile)
  }

  /** A stored refresh token the gateway rejects at startup: the visitor
      ends up signed out, with exactly one sign-out call, and the guard
      sends them to the login page. */
  method RejectedRefreshTokenAtStartup(message: Option<string>, code: Option<string>, profileAnswer: ProfileAnswer)
    returns (value: AuthContextValue, calls: seq<GatewayCall>, decision: AdminGuard.Decision)
    requires IsInvalidRefresh(message, code)
    ensures value == AuthContextValue(None, None, None, false)
    ensures calls == [GetSession, GatewaySignOut, Subscribe]
    ensures decision == AdminGuard.Redirect("/login")
  {
    var provider := new AuthProvider();
    provider.InitializeAuth(SessionFailed(message, code), profileAnswer);
    value, calls := provider.Value(), provider.calls;
    decision := GuardOf(value);
  }

  /** Any other startup error leaves the visitor signed out as well, but
      without a sign-out call. */
  method OtherErrorAtStartup(message: Option<string>, code: Option<string>, profileAnswer: ProfileAnswer)
    returns (value: AuthContextValue, calls: seq<GatewayCall>, decision: AdminGuard.Decision)
    requires !IsInvalidRefresh(message, code)
    ensures value == AuthContextValue(None, None, None, false)
    ensures calls == [GetSession, Subscribe]
    ensures decision == AdminGuard.Redirect("/login")
  {
    var provider := new AuthProvider();
    provider.InitializeAuth(SessionFailed(message, code), profileAnswer);
    value, calls := provider.Value(), provider.calls;
    decision := GuardOf(value);
  }

  /** A signed-in user whose profile cannot be read has no profile, so the
      guard sends them home however their stored role reads. */
  method ProfileUnreadableAtStartup(session: Session, failure: ProfileAnswer)
    returns (value: AuthContextValue, decision: AdminGuard.Decision)
    requires !failure.ProfileRow?
    ensures value == AuthContextValue(Some(session.user), Some(session), None, false)
    ensures decision == AdminGuard.Redirect("/")
  {
    var provider := new AuthProvider();
    provider.InitializeAuth(SessionOk(Some(session)), failure);
    value := provider.Value();
    decision := GuardOf(value);
  }

  /** An admin signs in and is let through; after the gateway reports their
      sign-out, the guard sends the visitor to the login page. */
  method AdminThenSignedOut(session: Session, row: Profile)
    returns (before: AdminGuard.Decision, after: AdminGuard.Decision, calls: seq<GatewayCall>)
    requires row.role == "admin"
    ensures before == AdminGuard.Render
    ensures after == AdminGuard.Redirect("/login")
    ensures calls == [GetSession, QueryProfile(session.user.id), Subscribe, GatewaySignOut]
  {
    var provider := new AuthProvider();
    provider.InitializeAuth(SessionOk(Some(session)), ProfileRow(row));
    before := GuardOf(provider.Value());
    var target := provider.SignOut();
    provider.OnAuthStateChange(None, ProfileError);
    after := GuardOf(provider.Value());
    calls := provider.calls;
  }

  /** An admin's session is replaced directly by another user's, and the
      second user's profile query fails: the admin's profile is kept, so the
      guard lets the second user through. */
  method StaleProfileAfterUserSwitch(admin: Session, row: Profile, other: Session, failure: ProfileAnswer)
    returns (value: AuthContextValue, decision: AdminGuard.Decision)
    requires row.role == "admin" && !failure.ProfileRow?
    ensures value == AuthContextValue(Some(other.user), Some(other), Some(row), false)
    ensures decision == AdminGuard.Render
  {
    var provider := new AuthProvider();
    provider.InitializeAuth(SessionOk(Some(admin)), ProfileRow(row));
    provider.OnAuthStateChange(Some(other), failure);
    value := provider.Value();
    decision := GuardOf(value);
  }
}
