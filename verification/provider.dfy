/** What the handlers see of the identity provider and the record store.
    Every call is external, so each is represented only by the outcome it
    resolves with, passed to a handler as an input. */
module Provider {
  import opened Wrappers

  /** A provider error: an optional `error_description` and a `message`. */
  datatype AuthError = AuthError(errorDescription: Option<string>, message: string)

  /** The identity returned by the provider: its id, its e-mail and the
      `user_type` entry of its metadata, if any. */
  datatype User = User(id: string, email: Option<string>, userType: Option<string>)

  /** Only metadata `user_type === 'org'` marks an organisation account. */
  predicate IsOrgAccount(u: User)
  {
    u.userType == Some("org")
  }

  /** Outcome of `signInWithPassword`. */
  datatype SignInOutcome = SignedIn(user: User) | SignInFailed(error: AuthError)

  /** Outcome of `signUp`. */
  datatype SignUpOutcome = SignedUp(user: User) | SignUpFailed(error: AuthError)

  /** Outcome of the role-table `select(...).eq('id', ...).single()`. */
  datatype LookupOutcome = LookupFailed | RowFound | NoRow

  /** Outcome of a record-store `upsert`. */
  datatype WriteOutcome = Written | WriteFailed

  /** JavaScript truthiness of an optional string: present and non-empty. */
  predicate Truthy(s: Option<string>)
  {
    s.Some? && s.value != ""
  }

  /** The text of `alert(error.error_description || error.message)`. */
  function AlertText(e: AuthError): (text: string)
    ensures Truthy(e.errorDescription) ==> text == e.errorDescription.value
    ensures !Truthy(e.errorDescription) ==> text == e.message
  {
    if Truthy(e.errorDescription) then e.errorDescription.value else e.message
  }
}
