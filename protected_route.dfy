/** The guard in front of the protected pages: a loading view while the
    session is being established, a redirect to the sign-in page when there
    is no session, and the protected content otherwise. */
module ProtectedRoute {
  import AuthStore

  /** What the guard renders: the loading text, a `<Navigate>` (with its
      target and `replace` flag), the given children, or the nested route's
      `<Outlet>`. */
  datatype Screen = Loading | Redirect(to: string, replace: bool) | Children | Outlet

  /** `ProtectedRoute`, given the store's two flags and whether children
      were passed. */
  function Guard(isLoading: bool, isAuthenticated: bool, hasChildren: bool): (v: Screen)
    ensures v.Loading? <==> isLoading
    ensures v.Redirect? <==> !isLoading && !isAuthenticated
    ensures v.Redirect? ==> v == Redirect("/auth", true)
    ensures v.Children? <==> !isLoading && isAuthenticated && hasChildren
    ensures v.Outlet? <==> !isLoading && isAuthenticated && !hasChildren
  {
    if isLoading then Loading
    else if !isAuthenticated then Redirect("/auth", true)
    else if hasChildren then Children
    else Outlet
  }

  /** Protected content is rendered exactly when the session is established
      and signed in. */
  lemma ContentIffSignedIn(isLoading: bool, isAuthenticated: bool, hasChildren: bool)
    ensures (Guard(isLoading, isAuthenticated, hasChildren).Children? || Guard(isLoading, isAuthenticated, hasChildren).Outlet?)
            <==> isAuthenticated && !isLoading
  {
  }

  /** From the store's initial state, the guard shows the loading view until
      something calls `setIsLoading`, whatever sign-ins succeed meanwhile. */
  lemma LoadingUntilSetIsLoading(ops: seq<AuthStore.Op>, hasChildren: bool)
    requires forall i :: 0 <= i < |ops| ==> !ops[i].SetIsLoading?
    ensures var s := AuthStore.ApplyAll(AuthStore.Initial, ops);
            Guard(s.isLoading, s.isAuthenticated, hasChildren) == Loading
  {
    AuthStore.LoadingUnchangedWithoutSetter(AuthStore.Initial, ops);
  }
}
