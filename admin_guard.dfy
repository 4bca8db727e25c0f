/** The admin access guard (components/auth/admin-guard.tsx). It reads only
    `loading`, `user` and `profile` from the auth context; its effect
    navigates and its render path chooses what to show, and both are
    modelled separately and then tied to one decision. */
module AdminGuard {
  import opened Wrappers
  import opened Auth

  /** What the guard decides for one auth state. */
  datatype Decision = Loading | Redirect(target: string) | Render

  /** What the render path returns. */
  datatype View = Spinner | Nothing | Children

  /** `profile?.role === 'admin'`: an absent profile is not an admin. */
  predicate IsAdmin(profile: Option<Profile>)
  {
    profile.Some? && profile.value.role == "admin"
  }

  /** The guard's decision. While loading it only waits; once loaded a
      visitor with no user is sent to exactly `/login` (no return path), a
      user who is not an admin is sent home, and only an admin is let
      through. */
  function Decide(loading: bool, user: Option<User>, profile: Option<Profile>): (d: Decision)
    ensures d == Loading <==> loading
    ensures d == Render <==> !loading && user.Some? && IsAdmin(profile)
    ensures d == Redirect("/login") <==> !loading && user.None?
    ensures d == Redirect("/") <==> !loading && user.Some? && !IsAdmin(profile)
  {
    if loading then Loading
    else if user.None? then Redirect("/login")
    else if !IsAdmin(profile) then Redirect("/")
    else Render
  }

  /** The navigation the guard's effect issues, if any. */
  function Navigation(loading: bool, user: Option<User>, profile: Option<Profile>): (r: Option<string>)
    ensures loading ==> r.None?
    ensures r.Some? ==> r.value == "/login" || r.value == "/"
  {
    if !loading then
      if user.None? then Some("/login")
      else if !IsAdmin(profile) then Some("/")
      else None
    else None
  }

  /** What the guard renders: a spinner while loading, nothing for a
      visitor who may not see the page, the children otherwise. */
  function ViewOf(loading: bool, user: Option<User>, profile: Option<Profile>): (v: View)
    ensures v == Spinner <==> loading
  {
    if loading then Spinner
    else if user.None? || !IsAdmin(profile) then Nothing
    else Children
  }

  /** The effect and the render path agree with the decision: the effect
      navigates exactly to a redirect's target, the spinner shows exactly
      while loading and the children exactly on `Render`. Hence navigating
      and rendering the children never happen together, and the guard
      renders nothing exactly when it navigates. */
  lemma EffectAndRenderFollowDecision(loading: bool, user: Option<User>, profile: Option<Profile>)
    ensures var d := Decide(loading, user, profile);
      && Navigation(loading, user, profile) == (if d.Redirect? then Some(d.target) else None)
      && ViewOf(loading, user, profile) == (match d
                                             case Loading => Spinner
                                             case Redirect(_) => Nothing
                                             case Render => Children)
    ensures Navigation(loading, user, profile).Some? ==> ViewOf(loading, user, profile) != Children
    ensures Navigation(loading, user, profile).Some? <==> ViewOf(loading, user, profile) == Nothing
  {
  }
}
