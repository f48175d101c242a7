/** The Material-UI sign-up form (SignUp.tsx): its state, its submit handler,
    its tab bar, its consent checkbox and its alert dialog. */
module MuiSignUp {
  import opened Wrappers
  import opened Effects
  import opened Provider
  import opened UserTypes

  /** The component's state cells. */
  datatype Form = Form(
    email: string,
    password: string,
    userType: UserType,   // selected tab
    showAlert: bool,      // showAlertDialog
    submitted: bool,      // isFormSubmitted
    consent: bool)        // checkboxChecked

  const Initial: Form := Form("", "", Buyer, false, false, false)

  /** The negation of the handler's guard
      `(!email || !password) || (userType == 'org' && !checkboxChecked)`. */
  predicate PassesValidation(s: Form)
  {
    s.email != "" && s.password != "" && (s.userType == Org ==> s.consent)
  }

  /** The role record written after the provider call. Organisations go to
      `admin` keyed by `org_id`, buyers to `buyers` keyed by `id`; the key and
      e-mail come from `data?.user`, which is absent when sign-up failed. */
  function RoleWrite(t: UserType, auth: SignUpOutcome): (e: Effect)
    ensures e.Upsert?
    ensures e.table == "admin" <==> t == Org
    ensures e.keyField == "org_id" <==> t == Org
    ensures t == Buyer ==> e.table == "buyers" && e.keyField == "id"
    ensures auth.SignedUp? ==> e.key == Some(auth.user.id) && e.recordEmail == auth.user.email
    ensures auth.SignUpFailed? ==> e.key.None? && e.recordEmail.None?
  {
    var key := if auth.SignedUp? then Some(auth.user.id) else None;
    var email := if auth.SignedUp? then auth.user.email else None;
    if t == Org then Upsert("admin", "org_id", key, email)
    else Upsert("buyers", "id", key, email)
  }

  /** `handleSignUp`: the submit handler. The outcome of the awaited upsert is
      an input the handler discards. */
  function HandleSignUp(s: Form, auth: SignUpOutcome, write: WriteOutcome): (r: Step<Form>)
    // every submit marks the form submitted; only the two flags can change
    ensures r.next.submitted
    ensures r.next.(showAlert := s.showAlert, submitted := s.submitted) == s
    // the alert flag is raised only by a validation failure
    ensures r.next.showAlert <==> s.showAlert || !PassesValidation(s)
    // validation failure: nothing at all happens beyond the state change
    ensures !PassesValidation(s) ==> r.trace == []
    // otherwise: the provider call, the role write, then a log line or the redirect
    ensures PassesValidation(s) ==>
      && |r.trace| == 3
      && r.trace[0] == SignUpCall(s.email, s.password)
      && r.trace[1] == RoleWrite(s.userType, auth)
      && (r.trace[2] == Navigate("/signin") <==> auth.SignedUp?)
      && (auth.SignUpFailed? ==> r.trace[2] == Log)
  {
    var marked := s.(submitted := true);
    if !PassesValidation(s) then
      Step(marked.(showAlert := true), [])
    else
      var last := if auth.SignUpFailed? then Log else Navigate("/signin");
      Step(marked, [SignUpCall(s.email, s.password), RoleWrite(s.userType, auth), last])
  }

  /** The AlertDialog is rendered when
      `showAlertDialog && isFormSubmitted && !checkboxChecked`. */
  predicate DialogVisible(s: Form)
  {
    s.showAlert && s.submitted && !s.consent
  }

  /** The dialog's onAgree: clears the alert flag and nothing else. */
  function Dismiss(s: Form): (r: Form)
    ensures !DialogVisible(r)
    ensures r.(showAlert := s.showAlert) == s
  {
    s.(showAlert := false)
  }

  /** The tab bar's onChange: swaps the selected tab, keeping the checkbox. */
  function ToggleTab(s: Form): (r: Form)
    ensures r.userType != s.userType
    ensures r.consent == s.consent
    ensures r.(userType := s.userType) == s
  {
    s.(userType := Toggle(s.userType))
  }

  /** The checkbox's onChange: records the ticked state and nothing else. */
  function SetConsent(s: Form, checked: bool): (r: Form)
    ensures r.consent == checked
    ensures r.(consent := s.consent) == s
  {
    s.(consent := checked)
  }

  // ---------------------------------------------------------------------
  // Properties of the handler

  /** A failed validation issues no provider call, no write and no
      navigation, and raises the alert flag. */
  lemma {:induction false} ValidationFailureIsSilent(s: Form, auth: SignUpOutcome, write: WriteOutcome)
    requires !PassesValidation(s)
    ensures
      var r := HandleSignUp(s, auth, write);
      && Count(r.trace, ProviderCall) == 0
      && Count(r.trace, Write) == 0
      && Navigations(r.trace) == []
      && r.next.showAlert
  {
  }

  /** A buyer never needs the consent checkbox. */
  lemma BuyerNeedsNoConsent(s: Form, auth: SignUpOutcome, write: WriteOutcome)
    requires s.userType == Buyer
    ensures HandleSignUp(s.(consent := false), auth, write).trace
         == HandleSignUp(s.(consent := true), auth, write).trace
  {
  }

  /** After validation, exactly one provider call and exactly one upsert are
      issued, whether or not the provider reported an error. */
  lemma ExactlyOneWrite(s: Form, auth: SignUpOutcome, write: WriteOutcome)
    requires PassesValidation(s)
    ensures var r := HandleSignUp(s, auth, write);
      && Count(r.trace, ProviderCall) == 1
      && Count(r.trace, Write) == 1
      && Count(r.trace, Lookup) == 0
  {
  }

  /** The handler redirects, once and to '/signin', exactly when the provider
      reported no error; otherwise it does not navigate at all. */
  lemma RedirectIffProviderOk(s: Form, auth: SignUpOutcome, write: WriteOutcome)
    requires PassesValidation(s)
    ensures var r := HandleSignUp(s, auth, write);
      && (auth.SignedUp? ==> Navigations(r.trace) == ["/signin"])
      && (auth.SignUpFailed? ==> Navigations(r.trace) == [])
  {
    var r := HandleSignUp(s, auth, write);
    var t := r.trace;
    assert t == [t[0]] + ([t[1]] + ([t[2]] + []));
    NavigationsCons(t[2], []);
    NavigationsCons(t[1], [t[2]] + []);
    NavigationsCons(t[0], [t[1]] + ([t[2]] + []));
  }

  /** The upsert's own outcome never changes what the handler does. */
  lemma WriteOutcomeIrrelevant(s: Form, auth: SignUpOutcome, w1: WriteOutcome, w2: WriteOutcome)
    ensures HandleSignUp(s, auth, w1) == HandleSignUp(s, auth, w2)
  {
  }

  /** A failed validation with the checkbox ticked raises the alert flag but
      shows no dialog; with it unticked the dialog shows. */
  lemma DialogAfterFailure(s: Form, auth: SignUpOutcome, write: WriteOutcome)
    requires !PassesValidation(s)
    ensures DialogVisible(HandleSignUp(s, auth, write).next) <==> !s.consent
  {
  }

  /** The form starts on the buyer tab with the checkbox unticked. */
  lemma InitialState()
    ensures Initial.userType == Buyer && !Initial.consent && !DialogVisible(Initial)
  {
  }
}
