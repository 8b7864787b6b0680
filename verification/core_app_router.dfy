/** The extended router of src/components/core/AppRouter.jsx: the same routes
    as the plain router, plus the password-reset screen, with the admin
    screen behind a role gate for admins and managers that redirects to "/". */
module CoreAppRouter {
  import opened JsValue
  import opened JsObject
  import opened Records
  import AppRouter
  import RequireRole

  /** A screen of this router: one of the plain router's, the reset screen,
      or the admin screen wrapped in a gate. */
  datatype CoreScreen =
    | Plain(screen: AppRouter.Screen)
    | ForgotPassword
    | Gated(props: RequireRole.GateProps, inner: AppRouter.Screen)

  const AdminGate := RequireRole.GateProps([Str("admin"), Str("manager")], "/")

  function CoreRoute(path: string, loading: bool): (r: CoreScreen)
    ensures loading ==> r == Plain(AppRouter.App)
    ensures !loading && path == "/forgot-password" ==> r == ForgotPassword
    ensures !loading && (path == "/admin" || path == "/admin-panel") ==> r == Gated(AdminGate, AppRouter.Admin)
  {
    if loading then Plain(AppRouter.App)
    else if path == "/login" || path == "/signin" then Plain(AppRouter.Login)
    else if path == "/register" || path == "/signup" then Plain(AppRouter.Register)
    else if path == "/forgot-password" then ForgotPassword
    else if path == "/profile" then Plain(AppRouter.Profile)
    else if path == "/my-applications" then Plain(AppRouter.MyApplications)
    else if path == "/admin" || path == "/admin-panel" then Gated(AdminGate, AppRouter.Admin)
    else Plain(AppRouter.App)
  }

  /** The two routers agree on every path but the reset path and the admin
      paths, where this one adds the reset screen and the gate. */
  lemma {:induction false} AgreesWithPlainRouter(path: string, loading: bool)
    ensures loading || (path != "/forgot-password" && path != "/admin" && path != "/admin-panel") ==>
              CoreRoute(path, loading) == Plain(AppRouter.Route(path, loading))
    ensures !loading && (path == "/admin" || path == "/admin-panel") ==>
              CoreRoute(path, loading) == Gated(AdminGate, AppRouter.Route(path, loading))
  {
  }

  /** On an admin path, a loaded session sees the admin panel exactly when
      the user is an admin or a manager; anyone else is sent to "/". */
  lemma {:induction false} AdminPathGated(path: string, user: Option<Record>)
    requires path == "/admin" || path == "/admin-panel"
    ensures CoreRoute(path, false).Gated?
    ensures var g := CoreRoute(path, false).props;
            (RequireRole.Render(g, user, false) == RequireRole.Children <==>
               user.Some? && (Prop(user.value, "role") == Str("admin") || Prop(user.value, "role") == Str("manager")))
            && (RequireRole.Render(g, user, false) != RequireRole.Children ==>
               RequireRole.Redirect(g, user, false) == Some("/"))
  {
    var g := CoreRoute(path, false).props;
    assert g == AdminGate;
    RequireRole.RenderOrRedirect(g, user, false);
  }
}
