/** The client's route guard (src/App.jsx in the front end): the screen chosen for a path
    from the `isAuthenticated` state cell, and the callbacks that set that cell. */
module ClientApp {
  import opened Strings
  import opened ClientAuth

  /** What the router renders: a form, the dashboard, the not-found page, or a redirect. */
  datatype Screen = LoginForm | RegisterForm | DashboardScreen | NotFoundScreen | Redirect(to: string)

  /** A path without its trailing slashes. */
  function DropTrailingSlashes(s: string): (r: string)
    ensures |r| <= |s| && r == s[..|r|]
    ensures r == [] || r[|r| - 1] != '/'
    ensures forall k :: |r| <= k < |s| ==> s[k] == '/'
  {
    if s != [] && s[|s| - 1] == '/' then DropTrailingSlashes(s[..|s| - 1]) else s
  }

  /** React Router's matching of a literal path: letters in any case, and any number of
      trailing slashes on either side. */
  predicate Matches(path: string, route: string) {
    DropTrailingSlashes(ToLower(path)) == DropTrailingSlashes(route)
  }

  /** The routes in the order they are declared; `*` takes everything else. */
  function ScreenFor(path: string, authenticated: bool): (s: Screen)
    ensures Matches(path, "/login") || Matches(path, "/register") ==>
      s == if authenticated then Redirect("/") else if Matches(path, "/login") then LoginForm else RegisterForm
    ensures Matches(path, "/") ==> s == if authenticated then DashboardScreen else Redirect("/login")
    ensures !Matches(path, "/login") && !Matches(path, "/register") && !Matches(path, "/") ==> s == NotFoundScreen
    ensures s.Redirect? ==> s.to == (if authenticated then "/" else "/login")
  {
    if Matches(path, "/login") then (if authenticated then Redirect("/") else LoginForm)
    else if Matches(path, "/register") then (if authenticated then Redirect("/") else RegisterForm)
    else if Matches(path, "/") then (if authenticated then DashboardScreen else Redirect("/login"))
    else NotFoundScreen
  }

  /** A redirect lands on a screen that is not itself a redirect: the guard never loops. */
  lemma RedirectSettles(path: string, authenticated: bool)
    requires ScreenFor(path, authenticated).Redirect?
    ensures var next := ScreenFor(ScreenFor(path, authenticated).to, authenticated);
            next == if authenticated then DashboardScreen else LoginForm
  {
    assert ToLower("/") == "/";
    LowerFixed("/login");
  }

  /** Logged in or not, a path outside the three routes shows the not-found page. */
  lemma UnknownPathIgnoresLogin(path: string)
    requires !Matches(path, "/login") && !Matches(path, "/register") && !Matches(path, "/")
    ensures ScreenFor(path, true) == ScreenFor(path, false) == NotFoundScreen
  {
  }

  /** A lower-case route lower-cases to itself. */
  lemma LowerFixed(s: string)
    requires forall k :: 0 <= k < |s| ==> !('A' <= s[k] <= 'Z')
    ensures ToLower(s) == s
  {
  }

  /** The `App` component's state cell. */
  class AppState {
    var isAuthenticated: bool

    /** A page load: the cell starts as "a truthy token is stored". */
    constructor (b: Browser)
      ensures isAuthenticated == b.IsAuthenticated()
    {
      isAuthenticated := b.IsAuthenticated();
    }

    /** What the router renders for a path. */
    function Render(path: string): Screen
      reads this
    {
      ScreenFor(path, isAuthenticated)
    }

    /** `onLogin`, passed to the login form. */
    method OnLogin()
      modifies this
      ensures isAuthenticated
    {
      isAuthenticated := true;
    }

    /** `onRegister`, passed to the registration form. */
    method OnRegister()
      modifies this
      ensures isAuthenticated
    {
      isAuthenticated := true;
    }

    /** `onLogout`, passed to the dashboard. */
    method OnLogout()
      modifies this
      ensures !isAuthenticated
    {
      isAuthenticated := false;
    }
  }
}
