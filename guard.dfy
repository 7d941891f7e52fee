/** The route guard: from what the authentication context reports, it decides between the
    loading spinner, a redirect, the access-denied view and the wrapped content. */
module Guard {
  import opened Common
  import opened Auth

  /** The four things the guard can render. */
  datatype Decision = ShowSpinner | RedirectTo(path: string) | ShowAccessDenied(requiredRole: string) | RenderChildren

  const DefaultRedirect := "/login"

  /** The target of the redirect: the `redirectTo` prop, "/login" when the prop is not given. */
  function RedirectTarget(redirectTo: Option<string>): (r: string)
    ensures redirectTo.None? ==> r == DefaultRedirect
    ensures redirectTo.Some? ==> r == redirectTo.value
  {
    if redirectTo.Some? then redirectTo.value else DefaultRedirect
  }

  /** `ProtectedRoute`: spinner while loading; otherwise a redirect when not authenticated;
      otherwise access-denied when a (truthy) required role is not the user's; otherwise the
      children. Exactly one decision, each with the condition that produces it. */
  function ProtectedRoute(loading: bool, authenticated: bool, user: Option<Profile>,
                          requiredRole: Option<string>, redirectTo: Option<string>): (d: Decision)
    ensures d == ShowSpinner <==> loading
    ensures d.RedirectTo? <==> !loading && !authenticated
    ensures d.RedirectTo? ==> d.path == RedirectTarget(redirectTo)
    ensures d.ShowAccessDenied? <==>
      !loading && authenticated && Truthy(requiredRole) && !HasRoleOf(user, requiredRole.value)
    ensures d.ShowAccessDenied? ==> d.requiredRole == requiredRole.value
    ensures d == RenderChildren <==>
      !loading && authenticated && (!Truthy(requiredRole) || HasRoleOf(user, requiredRole.value))
  {
    if loading then ShowSpinner
    else if !authenticated then RedirectTo(RedirectTarget(redirectTo))
    else if Truthy(requiredRole) && !HasRoleOf(user, requiredRole.value) then ShowAccessDenied(requiredRole.value)
    else RenderChildren
  }

  /** The guard fed from the authentication cells, as the component reads them from the context. */
  function GuardState(st: AuthState, requiredRole: Option<string>, redirectTo: Option<string>): (d: Decision)
    ensures d == ShowSpinner <==> st.loading
    ensures d.RedirectTo? <==> !st.loading && (st.session.None? || st.user.None?)
    ensures d == RenderChildren ==> !st.loading && st.session.Some? && st.user.Some?
    ensures d == RenderChildren && Truthy(requiredRole) ==> RoleName(st.user.value.role) == requiredRole.value
  {
    ProtectedRoute(st.loading, IsAuthenticatedOf(st), st.user, requiredRole, redirectTo)
  }

  /** Content behind a required role is rendered only for a loaded, authenticated user holding that role. */
  lemma ChildrenOnlyWithRole(st: AuthState, role: Role, redirectTo: Option<string>)
    requires GuardState(st, Some(RoleName(role)), redirectTo) == RenderChildren
    ensures !st.loading && st.session.Some? && st.user.Some? && st.user.value.role == role
  {
    assert RoleName(Admin) != RoleName(Client);
  }

  /** The redirect happens exactly when the state is loaded and unauthenticated, whatever role is required. */
  lemma RedirectIffAnonymous(st: AuthState, requiredRole: Option<string>)
    ensures GuardState(st, requiredRole, None) == RedirectTo(DefaultRedirect) <==> !st.loading && !IsAuthenticatedOf(st)
  {
  }
}
