/** The client's route guard: what `ProtectedRoute` shows for the current auth state. */
module ProtectedRoute {
  import opened Js
  import opened AuthContext

  datatype View = Loading | RedirectLogin | RedirectDashboard | Render

  /**
   * `ProtectedRoute({children, requiredRole})`: the loading view while the
   * session check runs, a redirect to /login without a user, a redirect to
   * /dashboard when a (truthy) required role differs from the user's, and the
   * children otherwise. An absent or empty required role admits every user.
   */
  function Guard(loading: bool, user: Option<User>, requiredRole: MaybeString): (v: View)
    ensures loading ==> v == Loading
    ensures !loading && user.None? ==> v == RedirectLogin
    ensures v == RedirectDashboard <==>
      !loading && user.Some? && Truthy(requiredRole) && user.value.role != requiredRole.value
    ensures v == Render <==>
      !loading && user.Some? && (!Truthy(requiredRole) || user.value.role == requiredRole.value)
  {
    if loading then Loading
    else if user.None? then RedirectLogin
    else if Truthy(requiredRole) && user.value.role != requiredRole.value then
      // 'admin' and every other role take the same redirect
      RedirectDashboard
    else Render
  }

  /** Whatever the user's role, a route without a required role renders for anyone signed in. */
  lemma AnyUserWithoutRequiredRole(user: User)
    ensures Guard(false, Some(user), None) == Render
    ensures Guard(false, Some(user), Some("")) == Render
  {
  }

  /** The guard reads the reducer's state: a reachable state renders only if the user is authenticated. */
  lemma RenderNeedsAuthentication(s: AuthState, requiredRole: MaybeString)
    requires Consistent(s)
    ensures Guard(s.loading, s.user, requiredRole) == Render ==> s.isAuthenticated && !s.loading
  {
  }
}
