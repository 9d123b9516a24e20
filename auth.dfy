/**
 * The session helpers: the login token lives under one key of the browser's
 * session store, and "logged in" means that key holds a non-empty string.
 */
module Auth {

  /** The key the token is kept under. */
  const TokenKey: string := "authToken"

  /** `!!sessionStorage.getItem('authToken')`: present and not the empty string. */
  predicate TokenPresent(entries: map<string, string>)
    ensures TokenPresent(entries) ==> "authToken" in entries && |entries["authToken"]| > 0
  {
    TokenKey in entries && entries[TokenKey] != ""
  }

  /** The session key/value store, which `login` and `logout` update in place. */
  class SessionStore {
    var entries: map<string, string>

    constructor (initial: map<string, string>)
      ensures entries == initial
    {
      entries := initial;
    }

    /** `login(token)`: stores the token, replacing any earlier one. */
    method Login(token: string)
      modifies this
      ensures entries == old(entries)[TokenKey := token]
    {
      entries := entries[TokenKey := token];
    }

    /** `logout()`: drops the token. */
    method Logout()
      modifies this
      ensures entries == old(entries) - {TokenKey}
    {
      entries := entries - {TokenKey};
    }

    /** `isLoggedIn()`. */
    predicate IsLoggedIn()
      reads this
      ensures IsLoggedIn() <==> TokenPresent(entries)
    {
      TokenPresent(entries)
    }
  }

  /** After `login(t)` the user is logged in exactly when `t` is not empty. */
  lemma LoginLogsIn(entries: map<string, string>, token: string)
    ensures TokenPresent(entries[TokenKey := token]) <==> token != ""
    ensures entries[TokenKey := token][TokenKey] == token
  {
  }

  /** After `logout()` nobody is logged in, whatever the store held. */
  lemma LogoutLogsOut(entries: map<string, string>)
    ensures !TokenPresent(entries - {TokenKey})
  {
  }

  /** `login` and `logout` leave every other key as it was. */
  lemma OtherKeysUntouched(entries: map<string, string>, token: string, k: string)
    requires k != TokenKey
    ensures k in entries[TokenKey := token] <==> k in entries
    ensures k in entries - {TokenKey} <==> k in entries
    ensures k in entries ==> entries[TokenKey := token][k] == entries[k] && (entries - {TokenKey})[k] == entries[k]
  {
  }

  /** Logging in and then out leaves the store as a bare logout would. */
  lemma LoginThenLogout(entries: map<string, string>, token: string)
    ensures entries[TokenKey := token] - {TokenKey} == entries - {TokenKey}
  {
  }
}
