/** The two route tables: App.jsx (Tailwind forms) and App.tsx (Material-UI
    forms). Both match the location path exactly and neither consults the
    session. */
module Routes {
  import opened Wrappers
  import opened Session

  /** The page components the routes render. */
  datatype Page =
    | LegacySignupPage   // Signup.jsx
    | LegacyLoginPage    // Login.jsx
    | MuiSignUpPage      // SignUp.tsx
    | MuiSignInPage      // SignIn.tsx
    | DashboardPage      // Dashboard (not part of this model)

  const LegacyTable: map<string, Page> :=
    map["/" := LegacySignupPage, "/login" := LegacyLoginPage, "/dashboard" := DashboardPage]

  const MuiTable: map<string, Page> :=
    map["/" := MuiSignUpPage, "/signin" := MuiSignInPage, "/dashboard" := DashboardPage]

  /** The element `<Routes>` renders for path, if any route matches. */
  function Resolve(table: map<string, Page>, path: string): (r: Option<Page>)
    ensures r.Some? <==> path in table
    ensures r.Some? ==> r.value == table[path]
  {
    if path in table then Some(table[path]) else None
  }

  /** App.jsx renders its routes with the session in scope, yet the route
      chosen is a function of the path only. */
  function LegacyApp(session: Option<AuthSession>, path: string): (r: Option<Page>)
    ensures r == Some(LegacySignupPage) <==> path == "/"
    ensures r == Some(LegacyLoginPage) <==> path == "/login"
    ensures r == Some(DashboardPage) <==> path == "/dashboard"
    ensures r.None? <==> path !in {"/", "/login", "/dashboard"}
  {
    Resolve(LegacyTable, path)
  }

  /** App.tsx has no session at all: the route is a function of the path. */
  function MuiApp(path: string): (r: Option<Page>)
    ensures r == Some(MuiSignUpPage) <==> path == "/"
    ensures r == Some(MuiSignInPage) <==> path == "/signin"
    ensures r == Some(DashboardPage) <==> path == "/dashboard"
    ensures r.None? <==> path !in {"/", "/signin", "/dashboard"}
  {
    Resolve(MuiTable, path)
  }

  /** No session value, including none at all, changes App.jsx's routing:
      '/dashboard' is reachable signed out. */
  lemma LegacyRoutingIgnoresSession(s1: Option<AuthSession>, s2: Option<AuthSession>, path: string)
    ensures LegacyApp(s1, path) == LegacyApp(s2, path)
    ensures LegacyApp(None, "/dashboard") == Some(DashboardPage)
  {
  }

  /** App.tsx has no route for the buyer dashboard nor for '/login'. */
  lemma MuiUnroutedPaths()
    ensures MuiApp("/buyer-dashboard").None?
    ensures MuiApp("/login").None?
  {
  }
}
