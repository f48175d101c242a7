/** How the handlers' redirects meet the route tables they run under:
    SignIn.tsx and SignUp.tsx under App.tsx, Login.jsx and Signup.jsx under
    App.jsx. */
module Flows {
  import opened Wrappers
  import opened Effects
  import opened Provider
  import opened UserTypes
  import opened Session
  import opened Routes
  import MuiSignIn
  import MuiSignUp
  import LegacyLogin
  import LegacySignup

  /** The page the router shows once a handler's trace has run, when the
      trace navigated at all: the route of its final navigation. */
  function Landing(t: Trace, route: string -> Option<Page>): (r: Option<Option<Page>>)
    ensures r.None? <==> Count(t, Navigation) == 0
  {
    match FinalNavigation(t)
    case None => None
    case Some(p) => Some(route(p))
  }

  /** A successful MUI sign-up lands on the sign-in page. */
  lemma SignUpLandsOnSignIn(s: MuiSignUp.Form, u: User, w: WriteOutcome)
    requires MuiSignUp.PassesValidation(s)
    ensures Landing(MuiSignUp.HandleSignUp(s, SignedUp(u), w).trace, MuiApp) == Some(Some(MuiSignInPage))
  {
    MuiSignUp.RedirectIffProviderOk(s, SignedUp(u), w);
  }

  /** Every successful MUI sign-in, whatever the role and whatever the lookup
      found, lands on the sign-up page: the final '/' overrides any dashboard. */
  lemma SignInLandsOnSignUp(s: MuiSignIn.Form, u: User, lookup: LookupOutcome)
    requires MuiSignIn.Filled(s)
    ensures Landing(MuiSignIn.HandleSignIn(s, SignedIn(u), lookup).trace, MuiApp) == Some(Some(MuiSignUpPage))
  {
    MuiSignIn.SignedInNavigation(s, u, lookup);
  }

  /** The buyer dashboard a found buyer row navigates to has no route. */
  lemma BuyerDashboardUnrouted(s: MuiSignIn.Form, u: User)
    requires MuiSignIn.Filled(s) && !IsOrgAccount(u)
    ensures var paths := Navigations(MuiSignIn.HandleSignIn(s, SignedIn(u), RowFound).trace);
      && paths == ["/buyer-dashboard", "/"]
      && MuiApp(paths[0]).None?
  {
    MuiSignIn.SignedInNavigation(s, u, RowFound);
  }

  /** The sign-up call carries only e-mail and password, so an account made
      by the form has no `user_type` metadata; signing in to such an account
      looks up `buyers` and never navigates to '/dashboard', even with the
      organisation tab selected. */
  lemma UntypedAccountIsBuyer(s: MuiSignIn.Form, u: User, lookup: LookupOutcome)
    requires MuiSignIn.Filled(s) && u.userType.None?
    ensures var t := MuiSignIn.HandleSignIn(s.(userType := Org), SignedIn(u), lookup).trace;
      && Select("buyers", u.id) in t
      && "/dashboard" !in Navigations(t)
  {
    MuiSignIn.SignedInLooksUpOnce(s.(userType := Org), u, lookup);
    MuiSignIn.SignedInNavigation(s.(userType := Org), u, lookup);
  }

  /** A successful Tailwind login lands on the dashboard. */
  lemma LoginLandsOnDashboard(s: LegacyLogin.Form, session: Option<AuthSession>)
    ensures Landing(LegacyLogin.HandleSignIn(s, None).trace, p => LegacyApp(session, p)) == Some(Some(DashboardPage))
  {
    LegacyLogin.NavigationRule(s, None);
    var t := LegacyLogin.HandleSignIn(s, None).trace;
    assert FinalNavigation(t) == Some("/dashboard");
  }

  /** Every Tailwind sign-up attempt lands on the login page. */
  lemma SignupLandsOnLogin(s: LegacySignup.Form, outcome: LegacySignup.Outcome, session: Option<AuthSession>)
    ensures Landing(LegacySignup.HandleSignUp(s, outcome).step.trace, p => LegacyApp(session, p)) == Some(Some(LegacyLoginPage))
  {
    LegacySignup.EveryAttemptEndsAtLogin(s, outcome);
  }
}
