/**
  The user service: the signed-in user kept as JSON text under the key
  'user' of the device's preferences store, read back with `JSON.parse`,
  and the owner check built on that read.
*/
module UserService {
  import opened Wrappers
  import opened Json
  import opened Storage

  const UserKey := "user"

  /** The error `JSON.parse` throws on text that is not a stored user. */
  const ParseError := "SyntaxError: JSON.parse"

  /** `getUser` over the store's entries: null for a missing or empty value, else the parsed user. */
  function UserFrom(entries: map<string, string>): (r: Result<Option<UserRecord>, string>)
    ensures UserKey !in entries || entries[UserKey] == "" ==> r == Ok(None)
    ensures UserKey in entries && entries[UserKey] != "" ==>
      (r.Ok? <==> ParseUser(entries[UserKey]).Some?)
    ensures UserKey in entries && entries[UserKey] != "" && ParseUser(entries[UserKey]).Some? ==>
      r == Ok(ParseUser(entries[UserKey]))
    ensures r.Err? ==> r.error == ParseError
    ensures r.Ok? && r.value.Some? ==> UserKey in entries && ParseUser(entries[UserKey]) == r.value
  {
    if UserKey !in entries || entries[UserKey] == "" then Ok(None)
    else
      match ParseUser(entries[UserKey])
      case None => Err(ParseError)
      case Some(u) => Ok(Some(u))
  }

  /** `isOwner` over the store's entries: the user when its role is 'owner', otherwise null. */
  function OwnerFrom(entries: map<string, string>): (r: Result<Option<UserRecord>, string>)
    ensures UserFrom(entries).Err? <==> r.Err?
    ensures r.Ok? && r.value.Some? <==> UserFrom(entries).Ok? && UserFrom(entries).value.Some? && UserFrom(entries).value.value.role == "owner"
    ensures r.Ok? && r.value.Some? ==> r.value == UserFrom(entries).value
  {
    match UserFrom(entries)
    case Err(e) => Err(e)
    case Ok(None) => Ok(None)
    case Ok(Some(u)) => if u.role == "owner" then Ok(Some(u)) else Ok(None)
  }

  /** A user just stored is the user read back, whatever the store held before. */
  lemma StoredUserReadBack(entries: map<string, string>, u: UserRecord)
    ensures UserFrom(entries[UserKey := EncodeUser(u)]) == Ok(Some(u))
  {
    ParseEncodeUser(u);
  }

  /** After storing `u`, `isOwner` gives `u` exactly when its role is 'owner'. */
  lemma OwnerAfterStore(entries: map<string, string>, u: UserRecord)
    ensures OwnerFrom(entries[UserKey := EncodeUser(u)]) == (if u.role == "owner" then Ok(Some(u)) else Ok(None))
  {
    StoredUserReadBack(entries, u);
  }

  class User {
    /** Capacitor `Preferences`. */
    const prefs: Store

    constructor (prefs: Store)
      ensures this.prefs == prefs
    {
      this.prefs := prefs;
    }

    /** `setUser`: the JSON text of the user under 'user'; no other key changes. */
    method SetUser(u: UserRecord)
      modifies prefs
      ensures prefs.entries == old(prefs.entries)[UserKey := EncodeUser(u)]
      ensures GetUser() == Ok(Some(u))
    {
      prefs.Set(UserKey, EncodeUser(u));
      StoredUserReadBack(old(prefs.entries), u);
    }

    /** `getUser`: null without stored text, the parsed user, or the parse error. */
    function GetUser(): (r: Result<Option<UserRecord>, string>)
      reads prefs
      ensures UserKey !in prefs.entries || prefs.entries[UserKey] == "" ==> r == Ok(None)
      ensures r.Ok? && r.value.Some? ==> UserKey in prefs.entries && ParseUser(prefs.entries[UserKey]) == r.value
      ensures r.Err? <==> UserKey in prefs.entries && prefs.entries[UserKey] != "" && ParseUser(prefs.entries[UserKey]).None?
    {
      UserFrom(prefs.entries)
    }

    /** `isOwner`: the user `getUser` gives when its role is 'owner', otherwise null; errors pass through. */
    function IsOwner(): (r: Result<Option<UserRecord>, string>)
      reads prefs
      ensures r.Err? <==> GetUser().Err?
      ensures r.Ok? && r.value.Some? <==> GetUser().Ok? && GetUser().value.Some? && GetUser().value.value.role == "owner"
      ensures r.Ok? && r.value.Some? ==> r == GetUser()
    {
      OwnerFrom(prefs.entries)
    }
  }
}
