/**
  The route guard for the sign-in pages: the mirror image of the auth guard,
  it lets the navigation through only when no token is stored.
*/
module LoginGuard {
  import opened Wrappers
  import opened Storage
  import opened AuthGuard

  /** `loginGuard` on the stored token: allow iff it is falsy, otherwise go to '/'. */
  function LoginGuardFor(token: Option<string>): (r: GuardOutcome)
    ensures r == Allow <==> !Truthy(token)
    ensures r != Allow ==> r == Redirect(["/"])
  {
    if !Truthy(token) then Allow else Redirect(["/"])
  }

  /** For every stored token exactly one of the two guards lets the navigation through. */
  lemma ExactlyOneGuardAllows(token: Option<string>)
    ensures (LoginGuardFor(token) == Allow) != (AuthGuardFor(token) == Allow)
  {
  }

  /** The guard reads the 'authToken' preference and nothing else, and writes nothing. */
  method LoginGuard(prefs: Store) returns (r: GuardOutcome)
    ensures r == LoginGuardFor(prefs.Get(TokenKey))
  {
    var value := prefs.Get(TokenKey);
    if !Truthy(value) {
      return Allow;
    }
    return Redirect(["/"]);
  }
}
