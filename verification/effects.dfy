/** Observable effects of a submit handler, recorded in the order they happen. */
module Effects {
  import opened Wrappers

  datatype Effect =
    | SignInWithPassword(email: string, password: string)   // supabase.auth.signInWithPassword
    | SignInWithOtp(email: string, password: string)        // supabase.auth.signInWithOtp
    | SignUpCall(email: string, password: string)           // supabase.auth.signUp
    | Select(table: string, idFilter: string)               // from(table).select('*').eq('id', ...)
    | Upsert(table: string, keyField: string, key: Option<string>, recordEmail: Option<string>)
    | Navigate(path: string)                                // navigate(path) / navigateTo(path)
    | Alert(text: string)                                   // window.alert(text)
    | Log                                                   // console.log / console.error
    | Loading(on: bool)                                     // setLoading(on)

  type Trace = seq<Effect>

  /** A handler's result: the form state it leaves behind and what it did. */
  datatype Step<F> = Step(next: F, trace: Trace)

  /** Categories of effect, for counting. */
  datatype Kind = ProviderCall | Lookup | Write | Navigation | Alerting | Logging | LoadingFlag

  function KindOf(e: Effect): Kind
  {
    match e
    case SignInWithPassword(_, _) => ProviderCall
    case SignInWithOtp(_, _) => ProviderCall
    case SignUpCall(_, _) => ProviderCall
    case Select(_, _) => Lookup
    case Upsert(_, _, _, _) => Write
    case Navigate(_) => Navigation
    case Alert(_) => Alerting
    case Log => Logging
    case Loading(_) => LoadingFlag
  }

  /** Number of effects of kind k in t. */
  function Count(t: Trace, k: Kind): (n: nat)
    ensures n <= |t|
    ensures n == 0 <==> forall i :: 0 <= i < |t| ==> KindOf(t[i]) != k
  {
    if t == [] then 0
    else
      var rest := Count(t[1..], k);
      assert forall i :: 1 <= i < |t| ==> t[i] == t[1..][i - 1];
      (if KindOf(t[0]) == k then 1 else 0) + rest
  }

  /** The paths navigated to in t, in order. */
  function Navigations(t: Trace): (paths: seq<string>)
    ensures |paths| <= |t|
  {
    if t == [] then []
    else
      var rest := Navigations(t[1..]);
      (if t[0].Navigate? then [t[0].path] else []) + rest
  }

  /** One path per navigation effect. */
  lemma {:induction false} NavigationsCount(t: Trace)
    ensures |Navigations(t)| == Count(t, Navigation)
  {
    if t != [] {
      NavigationsCount(t[1..]);
    }
  }

  /** The last path navigated to in t, which is where the router ends up. */
  function FinalNavigation(t: Trace): (p: Option<string>)
    ensures p.None? <==> Count(t, Navigation) == 0
  {
    NavigationsCount(t);
    var ps := Navigations(t);
    if ps == [] then None else Some(ps[|ps| - 1])
  }

  lemma {:induction false} CountAppend(a: Trace, b: Trace, k: Kind)
    ensures Count(a + b, k) == Count(a, k) + Count(b, k)
  {
    if a == [] {
      assert a + b == b;
    } else {
      assert (a + b)[1..] == a[1..] + b;
      CountAppend(a[1..], b, k);
    }
  }

  lemma {:induction false} NavigationsAppend(a: Trace, b: Trace)
    ensures Navigations(a + b) == Navigations(a) + Navigations(b)
  {
    if a == [] {
      assert a + b == b;
    } else {
      assert a == [a[0]] + a[1..];
      assert a + b == [a[0]] + (a[1..] + b);
      NavigationsCons(a[0], a[1..] + b);
      NavigationsCons(a[0], a[1..]);
      NavigationsAppend(a[1..], b);
    }
  }

  /** Counting across a first effect. */
  lemma CountCons(e: Effect, t: Trace, k: Kind)
    ensures Count([e] + t, k) == (if KindOf(e) == k then 1 else 0) + Count(t, k)
  {
  }

  /** Navigations across a first effect. */
  lemma NavigationsCons(e: Effect, t: Trace)
    ensures Navigations([e] + t) == (if e.Navigate? then [e.path] else []) + Navigations(t)
  {
  }

  /** A trace that ends in a navigation has that navigation as its final one. */
  lemma FinalNavigationIsLast(t: Trace, p: string)
    ensures FinalNavigation(t + [Navigate(p)]) == Some(p)
  {
    NavigationsAppend(t, [Navigate(p)]);
    assert Navigations([Navigate(p)]) == [p];
  }
}
