/**
  The authentication service over the browser's `localStorage`: the session
  check at construction, `isAuthenticated`, `logout`, and the error mapping
  of `forgotPassword`. The current-user subject is a field holding its value
  plus the log of values it has published.
*/
module AuthService {
  import opened Wrappers
  import opened Json
  import opened Storage

  const TokenKey := "authToken"
  const CurrentUserKey := "currentUser"
  const ResetEmailFailed := "Failed to send reset email"
  const ParseError := "SyntaxError: JSON.parse"

  /** `!!localStorage.getItem('authToken')`: present and non-empty. */
  predicate Authenticated(entries: map<string, string>) {
    TokenKey in entries && entries[TokenKey] != ""
  }

  /**
    What `checkStoredAuth` publishes: the parsed stored user when both the
    token and the user text are non-empty (a parse failure throws), else nothing.
  */
  function StoredSession(entries: map<string, string>): (r: Result<Option<UserRecord>, string>)
    ensures r.Ok? && r.value.Some? ==>
      Authenticated(entries) && CurrentUserKey in entries && ParseUser(entries[CurrentUserKey]) == r.value
    ensures !Authenticated(entries) || CurrentUserKey !in entries || entries[CurrentUserKey] == "" ==> r == Ok(None)
    ensures r.Err? <==> Authenticated(entries) && CurrentUserKey in entries && entries[CurrentUserKey] != ""
                        && ParseUser(entries[CurrentUserKey]).None?
    ensures r.Err? ==> r.error == ParseError
    ensures Authenticated(entries) && CurrentUserKey in entries && entries[CurrentUserKey] != ""
            && ParseUser(entries[CurrentUserKey]).Some?
            ==> r == Ok(ParseUser(entries[CurrentUserKey]))
  {
    if Authenticated(entries) && CurrentUserKey in entries && entries[CurrentUserKey] != "" then
      match ParseUser(entries[CurrentUserKey])
      case None => Err(ParseError)
      case Some(u) => Ok(Some(u))
    else Ok(None)
  }

  /** A session stored by the login flow is picked up at start. */
  lemma StoredSessionFound(entries: map<string, string>, token: string, u: UserRecord)
    requires token != ""
    ensures StoredSession(entries[TokenKey := token][CurrentUserKey := EncodeUser(u)]) == Ok(Some(u))
  {
    ParseEncodeUser(u);
  }

  /** The error `forgotPassword` rethrows: the server's message if non-empty, else the default. */
  function ForgotPasswordError(serverMessage: Option<string>): (e: string)
    ensures serverMessage.Some? && serverMessage.value != "" ==> e == serverMessage.value
    ensures serverMessage.None? || serverMessage.value == "" ==> e == ResetEmailFailed
    ensures e != ""
  {
    if serverMessage.Some? && serverMessage.value != "" then serverMessage.value else ResetEmailFailed
  }

  const GoogleLoginUnavailable := "Google login not implemented yet"

  /** The calls the service makes to the backend. */
  datatype AuthRequest =
    | LoginRequest(url: string, loginData: string)
    | ForgotPasswordRequest(url: string, email: string)

  class AuthService {
    const apiUrl: string
    /** The browser's `localStorage`. */
    const storage: Store
    /** The current-user subject's value; None is null. */
    var currentUser: Option<UserRecord>
    /** Every value pushed with `next`, oldest first. */
    var published: seq<Option<UserRecord>>
    /** The error the constructor's `checkStoredAuth` threw, if any. */
    var startupError: Option<string>
    var requests: seq<AuthRequest>

    /** Construction runs `checkStoredAuth`. */
    constructor (apiUrl: string, storage: Store)
      ensures this.apiUrl == apiUrl && this.storage == storage && requests == []
      ensures StoredSession(storage.entries) == Ok(None) ==> currentUser == None && published == [] && startupError == None
      ensures StoredSession(storage.entries).Err? ==> currentUser == None && published == [] && startupError == Some(ParseError)
      ensures StoredSession(storage.entries).Ok? && StoredSession(storage.entries).value.Some? ==>
        currentUser == StoredSession(storage.entries).value && published == [currentUser] && startupError == None
    {
      this.apiUrl := apiUrl;
      this.storage := storage;
      requests := [];
      var session := StoredSession(storage.entries);
      match session
      case Err(e) =>
        currentUser := None;
        published := [];
        startupError := Some(e);
      case Ok(None) =>
        currentUser := None;
        published := [];
        startupError := None;
      case Ok(Some(u)) =>
        currentUser := Some(u);
        published := [Some(u)];
        startupError := None;
    }

    /** `isAuthenticated`: a stored token that is not empty. */
    function IsAuthenticated(): (b: bool)
      reads storage
      ensures b <==> TokenKey in storage.entries && storage.entries[TokenKey] != ""
    {
      Authenticated(storage.entries)
    }

    /** `login(loginData)`: one POST to the '/login' endpoint; storage and the subject are untouched. */
    method Login(loginData: string)
      modifies this
      ensures requests == old(requests) + [LoginRequest(apiUrl + "/login", loginData)]
      ensures currentUser == old(currentUser) && published == old(published) && startupError == old(startupError)
    {
      requests := requests + [LoginRequest(apiUrl + "/login", loginData)];
    }

    /** `googleLogin(role)`: always rejects, and does nothing else. */
    method GoogleLogin(role: string) returns (r: Result<(), string>)
      ensures r == Err(GoogleLoginUnavailable)
    {
      r := Err(GoogleLoginUnavailable);
    }

    /** `logout`: removes exactly the token and the stored user, then publishes null. */
    method Logout()
      modifies this, storage
      ensures storage.entries == old(storage.entries) - {TokenKey, CurrentUserKey}
      ensures forall k :: k != TokenKey && k != CurrentUserKey ==>
        (k in storage.entries <==> k in old(storage.entries))
      ensures !IsAuthenticated() && StoredSession(storage.entries) == Ok(None)
      ensures currentUser == None && published == old(published) + [None]
      ensures requests == old(requests) && startupError == old(startupError)
    {
      storage.Remove(TokenKey);
      storage.Remove(CurrentUserKey);
      currentUser := None;
      published := published + [None];
    }

    /** `forgotPassword(email)`: the POST, and on failure the mapped error. */
    method ForgotPassword(email: string, outcome: Result<(), Option<string>>) returns (r: Result<(), string>)
      modifies this
      ensures requests == old(requests) + [ForgotPasswordRequest(apiUrl + "/auth/forgot-password", email)]
      ensures outcome.Ok? ==> r == Ok(())
      ensures outcome.Err? ==> r == Err(ForgotPasswordError(outcome.error))
      ensures currentUser == old(currentUser) && published == old(published)
    {
      requests := requests + [ForgotPasswordRequest(apiUrl + "/auth/forgot-password", email)];
      if outcome.Err? {
        r := Err(ForgotPasswordError(outcome.error));
      } else {
        r := Ok(());
      }
    }
  }
}
