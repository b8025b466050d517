/**
  The route guard for signed-in pages: it reads the 'authToken' preference
  and lets the navigation through only when the token is non-empty.
*/
module AuthGuard {
  import opened Wrappers
  import opened Storage

  const TokenKey := "authToken"

  /** A guard's answer: let the navigation through, or start a navigation elsewhere. */
  datatype GuardOutcome = Allow | Redirect(commands: seq<string>)

  /** The stored value is truthy: present and non-empty. */
  predicate Truthy(value: Option<string>) {
    value.Some? && value.value != ""
  }

  /** `authGuard` on the stored token: allow iff it is truthy, otherwise go to '/auth'. */
  function AuthGuardFor(token: Option<string>): (r: GuardOutcome)
    ensures r == Allow <==> Truthy(token)
    ensures r != Allow ==> r == Redirect(["/auth"])
  {
    if !Truthy(token) then Redirect(["/auth"]) else Allow
  }

  /** An empty token is treated like no token. */
  lemma EmptyTokenDenied()
    ensures AuthGuardFor(Some("")) == AuthGuardFor(None) == Redirect(["/auth"])
  {
  }

  /** The guard reads the 'authToken' preference and nothing else, and writes nothing. */
  method AuthGuard(prefs: Store) returns (r: GuardOutcome)
    ensures r == AuthGuardFor(prefs.Get(TokenKey))
  {
    var value := prefs.Get(TokenKey);
    if !Truthy(value) {
      return Redirect(["/auth"]);
    }
    return Allow;
  }
}
