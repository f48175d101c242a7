/** The Tailwind sign-up form (Signup.jsx): no local validation, a loading
    flag, a browser alert on error and a `finally` block that always clears
    the flag and redirects to '/login'. No role record is written. */
module LegacySignup {
  import opened Wrappers
  import opened Effects
  import opened Provider

  datatype Form = Form(email: string, password: string, loading: bool)

  const Initial: Form := Form("", "", false)

  /** How the awaited `signUp` settles: resolved with an optional error, or
      rejected (thrown). */
  datatype Outcome = Resolved(error: Option<AuthError>) | Threw

  /** A settled attempt: the step, and whether the handler's promise rejects
      (the exception propagates out of `finally`). */
  datatype Attempt = Attempt(step: Step<Form>, rejected: bool)

  /** `handleSignUp`. */
  function HandleSignUp(s: Form, outcome: Outcome): (r: Attempt)
    ensures r.step.next == Form(s.email, s.password, false)
    ensures r.rejected <==> outcome.Threw?
    // loading on, then the provider call, ...
    ensures 4 <= |r.step.trace| <= 5
    ensures r.step.trace[0] == Loading(true) && r.step.trace[1] == SignUpCall(s.email, s.password)
    // ... and, whatever happened, loading off and the redirect to '/login' last
    ensures r.step.trace[|r.step.trace| - 2..] == [Loading(false), Navigate("/login")]
    // an alert exactly when the provider resolved with an error
    ensures |r.step.trace| == 5 <==> outcome.Resolved? && outcome.error.Some?
    ensures outcome.Resolved? && outcome.error.Some? ==> r.step.trace[2] == Alert(AlertText(outcome.error.value))
  {
    var trace := [Loading(true), SignUpCall(s.email, s.password)] + TryEffects(outcome) + [Loading(false), Navigate("/login")];
    Attempt(Step(s.(loading := false), trace), outcome.Threw?)
  }

  /** The `try` block's contribution after the call: the alert, if any. */
  function TryEffects(outcome: Outcome): (t: Trace)
    ensures |t| <= 1
    ensures Count(t, ProviderCall) == 0 && Count(t, Write) == 0 && Navigations(t) == []
  {
    match outcome
    case Resolved(Some(e)) => [Alert(AlertText(e))]
    case Resolved(None) => []
    case Threw => []
  }

  /** An alert is raised exactly when the provider resolved with an error,
      never on success nor when the call threw. */
  lemma AlertExactlyOnError(s: Form, outcome: Outcome)
    ensures Count(HandleSignUp(s, outcome).step.trace, Alerting)
         == (if outcome.Resolved? && outcome.error.Some? then 1 else 0)
  {
    var mid := TryEffects(outcome);
    var head := [Loading(true), SignUpCall(s.email, s.password)];
    var tail := [Loading(false), Navigate("/login")];
    assert HandleSignUp(s, outcome).step.trace == head + mid + tail;
    CountAppend(head + mid, tail, Alerting);
    CountAppend(head, mid, Alerting);
  }

  /** Every attempt calls the provider once and writes no role record. */
  lemma EveryAttemptCallsOnce(s: Form, outcome: Outcome)
    ensures var t := HandleSignUp(s, outcome).step.trace;
      && Count(t, ProviderCall) == 1
      && Count(t, Write) == 0
  {
  }

  /** Every attempt navigates exactly once, to '/login', as its last effect. */
  lemma EveryAttemptEndsAtLogin(s: Form, outcome: Outcome)
    ensures var t := HandleSignUp(s, outcome).step.trace;
      && Navigations(t) == ["/login"]
      && FinalNavigation(t) == Some("/login")
  {
    var call := SignUpCall(s.email, s.password);
    var mid := TryEffects(outcome);
    var front := [Loading(true), call] + mid + [Loading(false)];
    var t := front + [Navigate("/login")];
    assert HandleSignUp(s, outcome).step.trace == t;
    NavigationsAppend([Loading(true), call] + mid, [Loading(false)]);
    NavigationsAppend([Loading(true), call], mid);
    NavigationsCons(Loading(true), [call]);
    NavigationsCons(call, []);
    NavigationsCons(Loading(false), []);
    NavigationsAppend(front, [Navigate("/login")]);
    NavigationsCons(Navigate("/login"), []);
    FinalNavigationIsLast(front, "/login");
  }
}
