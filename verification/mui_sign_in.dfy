/** The Material-UI sign-in form (SignIn.tsx): its state, its submit handler,
    its tab bar and its alert dialog. */
module MuiSignIn {
  import opened Wrappers
  import opened Effects
  import opened Provider
  import opened UserTypes

  /** The component's state cells. */
  datatype Form = Form(
    email: string,
    password: string,
    userType: UserType,   // selected tab
    showAlert: bool,      // showAlertDialog
    submitted: bool)      // isFormSubmitted

  const Initial: Form := Form("", "", Buyer, false, false)

  /** `!email || !password` is false. */
  predicate Filled(s: Form)
  {
    s.email != "" && s.password != ""
  }

  /** The role table consulted for a signed-in user: chosen by metadata only. */
  function LookupTable(u: User): (table: string)
    ensures table == "admin" <==> IsOrgAccount(u)
    ensures table == "admin" || table == "buyers"
  {
    if IsOrgAccount(u) then "admin" else "buyers"
  }

  /** The dashboard a found role row leads to, again chosen by metadata only. */
  function DashboardPath(u: User): (path: string)
    ensures path == "/dashboard" <==> IsOrgAccount(u)
    ensures path == "/dashboard" || path == "/buyer-dashboard"
  {
    if IsOrgAccount(u) then "/dashboard" else "/buyer-dashboard"
  }

  /** What follows the role lookup: a dashboard navigation on a found row,
      a log line on a lookup error or a missing row. */
  function AfterLookup(u: User, lookup: LookupOutcome): (t: Trace)
    ensures |t| == 1
    ensures t[0].Navigate? <==> lookup.RowFound?
    ensures lookup.RowFound? ==> t[0] == Navigate(DashboardPath(u))
  {
    match lookup
    case LookupFailed => [Log]
    case RowFound => [Navigate(DashboardPath(u))]
    case NoRow => [Log]
  }

  /** `handleSignIn`: the submit handler. */
  function HandleSignIn(s: Form, auth: SignInOutcome, lookup: LookupOutcome): (r: Step<Form>)
    // every submit marks the form submitted; only the two flags can change
    ensures r.next.submitted
    ensures r.next.(showAlert := s.showAlert, submitted := s.submitted) == s
    // the alert flag is raised on a validation failure or a provider error, never cleared
    ensures r.next.showAlert <==> s.showAlert || !Filled(s) || auth.SignInFailed?
    // validation failure: nothing at all happens beyond the state change
    ensures !Filled(s) ==> r.trace == []
    // otherwise the provider call comes first
    ensures Filled(s) ==> |r.trace| >= 2 && r.trace[0] == SignInWithPassword(s.email, s.password)
    // provider error: the call, then a log line
    ensures Filled(s) && auth.SignInFailed? ==> r.trace == [SignInWithPassword(s.email, s.password), Log]
    // provider success: the lookup by returned id, then the lookup's follow-up, then '/'
    ensures Filled(s) && auth.SignedIn? ==>
      && |r.trace| == 4
      && r.trace[1] == Select(LookupTable(auth.user), auth.user.id)
      && r.trace[3] == Navigate("/")
  {
    var marked := s.(submitted := true);
    if !Filled(s) then
      Step(marked.(showAlert := true), [])
    else
      var call := SignInWithPassword(s.email, s.password);
      match auth
      case SignInFailed(_) =>
        Step(marked.(showAlert := true), [call, Log])
      case SignedIn(user) =>
        Step(marked, [call, Select(LookupTable(user), user.id)] + AfterLookup(user, lookup) + [Navigate("/")])
  }

  /** The AlertDialog is rendered when `showAlertDialog && isFormSubmitted`. */
  predicate DialogVisible(s: Form)
  {
    s.showAlert && s.submitted
  }

  /** The dialog's onAgree: clears the alert flag and nothing else. */
  function Dismiss(s: Form): (r: Form)
    ensures !DialogVisible(r)
    ensures r.(showAlert := s.showAlert) == s
  {
    s.(showAlert := false)
  }

  /** The tab bar's onChange: swaps the selected tab and nothing else. */
  function ToggleTab(s: Form): (r: Form)
    ensures r.userType != s.userType
    ensures r.(userType := s.userType) == s
  {
    s.(userType := Toggle(s.userType))
  }

  // ---------------------------------------------------------------------
  // Properties of the handler

  /** An incomplete form never reaches the provider or the record store and
      never navigates, and it leaves the dialog showing. */
  lemma ValidationFailureIsSilent(s: Form, auth: SignInOutcome, lookup: LookupOutcome)
    requires !Filled(s)
    ensures var r := HandleSignIn(s, auth, lookup);
      && Count(r.trace, ProviderCall) == 0
      && Count(r.trace, Lookup) == 0
      && Navigations(r.trace) == []
      && DialogVisible(r.next)
  {
  }

  /** A provider error raises the dialog, issues exactly one provider call,
      no lookup and no navigation. */
  lemma ProviderErrorStaysOnForm(s: Form, e: AuthError, lookup: LookupOutcome)
    requires Filled(s)
    ensures var r := HandleSignIn(s, SignInFailed(e), lookup);
      && Count(r.trace, ProviderCall) == 1
      && Count(r.trace, Lookup) == 0
      && Navigations(r.trace) == []
      && DialogVisible(r.next)
  {
  }

  /** Provider success: exactly one provider call and exactly one lookup,
      against `admin` exactly when the metadata says 'org' and otherwise
      `buyers`, filtered by the returned id. */
  lemma SignedInLooksUpOnce(s: Form, u: User, lookup: LookupOutcome)
    requires Filled(s)
    ensures var r := HandleSignIn(s, SignedIn(u), lookup);
      && Count(r.trace, ProviderCall) == 1
      && Count(r.trace, Lookup) == 1
      && Select(LookupTable(u), u.id) in r.trace
  {
  }

  /** Provider success: the navigations are the role's dashboard, only when
      a row was found, and then always '/', which is therefore final. */
  lemma SignedInNavigation(s: Form, u: User, lookup: LookupOutcome)
    requires Filled(s)
    ensures var r := HandleSignIn(s, SignedIn(u), lookup);
      && Navigations(r.trace) == (if lookup.RowFound? then [DashboardPath(u)] else []) + ["/"]
      && FinalNavigation(r.trace) == Some("/")
  {
    var call := SignInWithPassword(s.email, s.password);
    var sel := Select(LookupTable(u), u.id);
    var mid := AfterLookup(u, lookup);
    var t := [call] + ([sel] + (mid + [Navigate("/")]));
    assert HandleSignIn(s, SignedIn(u), lookup).trace == t;
    NavigationsCons(call, [sel] + (mid + [Navigate("/")]));
    NavigationsCons(sel, mid + [Navigate("/")]);
    NavigationsAppend(mid, [Navigate("/")]);
    NavigationsCons(mid[0], []);
    assert mid == [mid[0]] + [];
    NavigationsCons(Navigate("/"), []);
    assert t == ([call, sel] + mid) + [Navigate("/")];
    FinalNavigationIsLast([call, sel] + mid, "/");
  }

  /** Lookup error or missing row: no dashboard navigation, only a log line
      before the final '/'. */
  lemma MissingRoleHasNoDashboard(s: Form, u: User, lookup: LookupOutcome)
    requires Filled(s) && !lookup.RowFound?
    ensures var r := HandleSignIn(s, SignedIn(u), lookup);
      && Navigations(r.trace) == ["/"]
      && Log in r.trace
  {
    SignedInNavigation(s, u, lookup);
  }

  /** The selected tab never influences the trace: only metadata does. */
  lemma TabIrrelevant(s: Form, t: UserType, auth: SignInOutcome, lookup: LookupOutcome)
    ensures HandleSignIn(s.(userType := t), auth, lookup).trace == HandleSignIn(s, auth, lookup).trace
  {
  }

  /** The form starts on the buyer tab, with no dialog. */
  lemma InitialState()
    ensures Initial.userType == Buyer && !DialogVisible(Initial) && !Filled(Initial)
  {
  }
}
