/** Navigation (src/App.jsx): the two route guards, the route table with its adminOnly
    flags, the screen each path resolves to for a session, and how the table agrees with
    the sidebar menu. */
module Routes {
  import opened Wrappers
  import opened Entities
  import opened AuthContext
  import opened Sidebar

  /** What a route shows: the loading spinner, a redirect, or its page. */
  datatype Screen = Spinner | Redirect(to: string) | Render

  const LoginPath := "/login"
  const DashboardPath := "/dashboard"

  /** `ProtectedRoute`: the spinner while loading, then sign-in for a visitor, then the
      dashboard for a non-administrator on an administrators' route. */
  function ProtectedRoute(loading: bool, authenticated: bool, admin: bool, adminOnly: bool): (s: Screen)
    ensures s == Spinner <==> loading
    ensures s == Render <==> !loading && authenticated && (adminOnly ==> admin)
    ensures s == Redirect(LoginPath) <==> !loading && !authenticated
    ensures s.Redirect? ==> s.to == LoginPath || s.to == DashboardPath
  {
    if loading then Spinner
    else if !authenticated then Redirect(LoginPath)
    else if adminOnly && !admin then Redirect(DashboardPath)
    else Render
  }

  /** `PublicRoute`: the spinner while loading, the dashboard for a signed-in user, the
      page for a visitor. */
  function PublicRoute(loading: bool, authenticated: bool): (s: Screen)
    ensures s == Spinner <==> loading
    ensures s == Render <==> !loading && !authenticated
    ensures s.Redirect? ==> s.to == DashboardPath
  {
    if loading then Spinner
    else if authenticated then Redirect(DashboardPath)
    else Render
  }

  /** Once loading is over, the sign-in page and a page that needs no administrator are
      never both shown: exactly one of them renders for any session. */
  lemma PublicAndProtectedExclusive(authenticated: bool, admin: bool)
    ensures (PublicRoute(false, authenticated) == Render) != (ProtectedRoute(false, authenticated, admin, false) == Render)
  {
  }

  /** The routes inside the layout, with whether only administrators may open them. */
  const ChildRoutes: map<string, bool> := map[
    "/dashboard" := false, "/productos" := false, "/movimientos" := false, "/stock" := false,
    "/categorias" := true, "/almacenes" := true, "/usuarios" := true]

  /** The screen at `path` for a session that is `loading` with signed-in `user`:
      `/login` behind the public guard; `/` and its children behind the layout's guard,
      the index redirecting to the dashboard and the administrators' pages behind a guard
      of their own; every other path redirected to the dashboard. */
  function Resolve(path: string, loading: bool, user: Option<User>): (s: Screen)
    ensures s == Render <==>
              !loading &&
              ((path == LoginPath && !Authenticated(user))
               || (path in ChildRoutes && Authenticated(user) && (ChildRoutes[path] ==> Admin(user))))
    ensures path != LoginPath && path != "/" && path !in ChildRoutes ==> s == Redirect(DashboardPath)
    ensures loading && (path == LoginPath || path == "/" || path in ChildRoutes) ==> s == Spinner
  {
    var authenticated, admin := Authenticated(user), Admin(user);
    if path == LoginPath then PublicRoute(loading, authenticated)
    else if path == "/" || path in ChildRoutes then
      var layout := ProtectedRoute(loading, authenticated, admin, false);
      if layout != Render then layout
      else if path == "/" then Redirect(DashboardPath)
      else if ChildRoutes[path] then ProtectedRoute(loading, authenticated, admin, true)
      else Render
    else Redirect(DashboardPath)
  }

  lemma LoginIsNotChild()
    ensures LoginPath !in ChildRoutes && "/" !in ChildRoutes
  {
    assert LoginPath[1] == 'l';
  }

  /** Categorías, Almacenes and Usuarios are the administrators' routes; Dashboard,
      Productos, Movimientos and Stock only need a signed-in user. */
  lemma AdminOnlyRoutes()
    ensures forall p | p in ChildRoutes :: ChildRoutes[p] <==> p in {"/categorias", "/almacenes", "/usuarios"}
  {
  }

  /** Once loading is over, following redirects never loops: at most two redirects lead
      to a page that renders. */
  lemma RedirectsSettle(path: string, user: Option<User>)
    ensures var s1 := Resolve(path, false, user);
            s1.Redirect? ==>
              var s2 := Resolve(s1.to, false, user);
              s2 == Render || (s2.Redirect? && Resolve(s2.to, false, user) == Render)
  {
    LoginIsNotChild();
    assert DashboardPath in ChildRoutes && !ChildRoutes[DashboardPath];
  }

  /** Every menu entry is a route of the layout, and an entry is hidden from colaboradores
      exactly when its route is for administrators only. */
  lemma MenuMatchesRoutes()
    ensures forall i | 0 <= i < |MenuItems| ::
              MenuItems[i].path in ChildRoutes && (ChildRoutes[MenuItems[i].path] <==> Colaborador !in MenuItems[i].roles)
  {
    assert Administrador[0] != Colaborador[0];
    assert Colaborador in Everyone && Colaborador !in AdminOnly;
  }

  /** Every entry a signed-in user's menu shows opens a page that renders for them. */
  lemma MenuEntriesRender(u: User)
    ensures forall it | it in MenuFor(Some(u.rol)) :: Resolve(it.path, false, Some(u)) == Render
  {
    MenuMatchesRoutes();
    forall it | it in MenuFor(Some(u.rol))
      ensures Resolve(it.path, false, Some(u)) == Render
    {
      var i :| 0 <= i < |MenuItems| && MenuItems[i] == it;
      if ChildRoutes[it.path] {
        assert it.roles == AdminOnly;
      }
    }
  }
}
