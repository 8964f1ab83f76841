/**
 * The route guard (frontend/src/components/ProtectedRoute.js): nothing until the session is
 * loaded, then a route whose render function mounts the wrapped component for a signed-in
 * user and redirects everyone else to the public root.
 */
module ProtectedRoute {
  import opened Wrappers

  /** What the route's render function produces for the router props it is given. */
  datatype Child<C, P> = Mount(component: C, props: P) | Redirect(to: string)

  /** The route element the guard returns: the caller's remaining props and the wrapped component. */
  datatype Guarded<C, R> = GuardedRoute(rest: R, component: C)

  const PublicRoot := "/"

  /** The guard's own result: null while the session loads, otherwise the route with `rest` spread onto it. */
  function Guard<C, R>(isLoaded: bool, component: C, rest: R): (e: Option<Guarded<C, R>>)
    ensures e.None? <==> !isLoaded
    ensures e.Some? ==> e.value.rest == rest && e.value.component == component
  {
    if isLoaded then Some(GuardedRoute(rest, component)) else None
  }

  /** The route's render function: the component with the router props, or the redirect. */
  function Render<C, R, P>(route: Guarded<C, R>, signedIn: bool, props: P): (child: Child<C, P>)
    ensures child.Mount? <==> signedIn
    ensures child.Mount? ==> child.component == route.component && child.props == props
    ensures child.Redirect? ==> child.to == PublicRoot
  {
    if signedIn then Mount(route.component, props) else Redirect(PublicRoot)
  }

  /**
   * Once the session is loaded, what the guard renders depends on nothing but the user: the
   * same props reach the component for every signed-in user, and every other visitor is sent
   * to the public root.
   */
  lemma LoadedGuardDecides<C, R, P>(component: C, rest: R, props: P, signedIn: bool)
    ensures var e := Guard(true, component, rest);
            && e.Some? && e.value.rest == rest
            && Render(e.value, signedIn, props) == if signedIn then Mount(component, props) else Redirect(PublicRoot)
  {
  }
}
