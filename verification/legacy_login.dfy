/** The Tailwind login form (Login.jsx): no local validation, a loading flag,
    a browser alert on error and a redirect on success. */
module LegacyLogin {
  import opened Wrappers
  import opened Effects
  import opened Provider

  datatype Form = Form(email: string, password: string, loading: bool)

  const Initial: Form := Form("", "", false)

  /** `handleSignIn`. The provider (`signInWithOtp`) resolves with an optional
      error. */
  function HandleSignIn(s: Form, error: Option<AuthError>): (r: Step<Form>)
    // the form keeps its fields and ends not loading
    ensures r.next == Form(s.email, s.password, false)
    // loading is switched on first and off last; the provider call comes second
    ensures |r.trace| == 4
    ensures r.trace[0] == Loading(true) && r.trace[|r.trace| - 1] == Loading(false)
    ensures r.trace[1] == SignInWithOtp(s.email, s.password)
    // between them: the alert on error, the redirect on success
    ensures error.Some? ==> r.trace[2] == Alert(AlertText(error.value))
    ensures error.None? ==> r.trace[2] == Navigate("/dashboard")
  {
    var outcome := if error.Some? then Alert(AlertText(error.value)) else Navigate("/dashboard");
    Step(s.(loading := false), [Loading(true), SignInWithOtp(s.email, s.password), outcome, Loading(false)])
  }

  /** Every submit calls the provider exactly once, even with empty fields,
      while the loading flag is on. */
  lemma AlwaysCallsProvider(s: Form, error: Option<AuthError>)
    ensures var t := HandleSignIn(s, error).trace;
      && Count(t, ProviderCall) == 1
      && Count(t, LoadingFlag) == 2
  {
    var t := HandleSignIn(s, error).trace;
    assert t == t[..2] + t[2..];
    CountAppend(t[..2], t[2..], ProviderCall);
    CountAppend(t[..2], t[2..], LoadingFlag);
  }

  /** On success exactly one navigation, to '/dashboard'; on error none, and
      the alert shows `error_description` when it is non-empty, else `message`. */
  lemma NavigationRule(s: Form, error: Option<AuthError>)
    ensures var t := HandleSignIn(s, error).trace;
      && (error.None? ==> Navigations(t) == ["/dashboard"] && Count(t, Alerting) == 0)
      && (error.Some? ==> Navigations(t) == [] && Count(t, Alerting) == 1)
  {
    var t := HandleSignIn(s, error).trace;
    assert t == t[..2] + t[2..];
    NavigationsAppend(t[..2], t[2..]);
    CountAppend(t[..2], t[2..], Alerting);
  }
}
