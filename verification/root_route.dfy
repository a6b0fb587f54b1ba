/** The root route of `src/routes/__root.tsx`: the `beforeLoad` guard every
    navigation passes, and whether the layout shows the header. */
module RootRoute {
  import opened Wrappers

  const LoginPath: string := "/login"

  /** The router context the guard reads. */
  datatype RouterContext = RouterContext(isAuthenticated: bool, isAuthLoading: bool)

  datatype Location = Location(pathname: string, href: string)

  /** A thrown `redirect`: the target path and its `redirect` search value. */
  datatype Redirect = Redirect(to: string, back: string)

  /** `beforeLoad`: `None` lets the navigation through. */
  function BeforeLoad(context: RouterContext, location: Location): (r: Option<Redirect>)
    ensures r.Some? <==> location.pathname != LoginPath && !context.isAuthenticated && !context.isAuthLoading
    ensures r.Some? ==> r.value == Redirect(LoginPath, location.href)
  {
    if location.pathname == LoginPath then None
    else if !context.isAuthenticated && !context.isAuthLoading then Some(Redirect(LoginPath, location.href))
    else None
  }

  /** `RootComponent` renders the header everywhere but on the login page. */
  predicate ShowsHeader(pathname: string) {
    pathname != LoginPath
  }

  /** The redirect target is itself let through, whatever the context, so
      the guard never sends a visitor round in circles. */
  lemma RedirectTargetIsOpen(context: RouterContext, location: Location, href: string)
    requires BeforeLoad(context, location).Some?
    ensures BeforeLoad(context, Location(BeforeLoad(context, location).value.to, href)).None?
  {
  }

  /** A redirect lands on a page without the header, and only ever leaves
      a page that has one. */
  lemma HeaderOnGuardedPages(context: RouterContext, location: Location)
    requires BeforeLoad(context, location).Some?
    ensures !ShowsHeader(BeforeLoad(context, location).value.to)
    ensures ShowsHeader(location.pathname)
  {
  }

  /** Only pages with the header are guarded: the login page is always let
      through, and a page with the header is redirected exactly when
      nobody is signed in and no session is being restored. */
  lemma HeaderPagesAreGuarded(context: RouterContext, location: Location)
    ensures !ShowsHeader(location.pathname) ==> BeforeLoad(context, location).None?
    ensures ShowsHeader(location.pathname) ==>
      (BeforeLoad(context, location).Some? <==> !context.isAuthenticated && !context.isAuthLoading)
  {
  }
}
