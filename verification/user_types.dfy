/** The two account categories a form's tab bar selects between. */
module UserTypes {

  /** The tab state `userType`. It starts at 'buyer' and the tab toggle only
      ever produces 'buyer' or 'org', so no other string is reachable. */
  datatype UserType = Buyer | Org

  /** The tabs' onChange handler: 'buyer' becomes 'org', anything else 'buyer'. */
  function Toggle(u: UserType): (r: UserType)
    ensures r != u
    ensures r == Org <==> u == Buyer
  {
    if u == Buyer then Org else Buyer
  }

  /** Toggling twice restores the tab. */
  lemma ToggleInvolution(u: UserType)
    ensures Toggle(Toggle(u)) == u
  {
  }
}
