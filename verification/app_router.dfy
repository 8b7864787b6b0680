/** The path router of src/components/AppRouter.jsx: the screen chosen for
    the current path, and `navigate`, which pushes a history entry and sets
    the path. */
module AppRouter {

  /** The screens the router can show. */
  datatype Screen = App | Login | Register | Profile | MyApplications | Admin

  /** The route chosen while the session is loaded; any path no branch names
      shows the main application. */
  function Route(path: string, loading: bool): (r: Screen)
    ensures loading ==> r == App
    ensures !loading && (path == "/login" || path == "/signin") ==> r == Login
    ensures !loading && (path == "/register" || path == "/signup") ==> r == Register
    ensures !loading && path == "/profile" ==> r == Profile
    ensures !loading && path == "/my-applications" ==> r == MyApplications
    ensures !loading && (path == "/admin" || path == "/admin-panel") ==> r == Admin
  {
    if loading then App
    else if path == "/login" || path == "/signin" then Login
    else if path == "/register" || path == "/signup" then Register
    else if path == "/profile" then Profile
    else if path == "/my-applications" then MyApplications
    else if path == "/admin" || path == "/admin-panel" then Admin
    else App
  }

  /** The paths the router names. */
  const KnownPaths: set<string> :=
    {"/login", "/signin", "/register", "/signup", "/profile", "/my-applications", "/admin", "/admin-panel"}

  /** A path for every screen: the one `navigate` is called with. */
  function PathOf(s: Screen): string {
    match s
    case App => "/"
    case Login => "/login"
    case Register => "/register"
    case Profile => "/profile"
    case MyApplications => "/my-applications"
    case Admin => "/admin"
  }

  /** Routing a screen's own path gives the screen back. */
  lemma {:induction false} RoutePathOf(s: Screen)
    ensures Route(PathOf(s), false) == s
  {
  }

  /** Every path outside the named ones shows the main application, and a
      path shows something else only if it is named. */
  lemma {:induction false} UnknownPathsShowApp(path: string)
    ensures path !in KnownPaths ==> Route(path, false) == App
    ensures Route(path, false) != App ==> path in KnownPaths
  {
  }

  class Router {
    var currentPath: string
    /** The entries `history.pushState` added, oldest first. */
    var history: seq<string>

    /** The path starts as `window.location.pathname`. */
    constructor(pathname: string)
      ensures currentPath == pathname && history == []
    {
      currentPath := pathname;
      history := [];
    }

    /** `navigate(path)`: one history entry and the new path. */
    method Navigate(path: string)
      modifies this
      ensures currentPath == path && history == old(history) + [path]
    {
      history := history + [path];
      currentPath := path;
    }

    /** The `popstate` listener: the path becomes the browser's. */
    method OnPopState(pathname: string)
      modifies this
      ensures currentPath == pathname && history == old(history)
    {
      currentPath := pathname;
    }
  }

  /** Navigating to a screen's path shows that screen once the session has
      loaded. */
  method NavigateTo(s: Screen, pathname: string) returns (r: Router)
    ensures Route(r.currentPath, false) == s && r.history == [PathOf(s)]
  {
    r := new Router(pathname);
    r.Navigate(PathOf(s));
    RoutePathOf(s);
  }
}
