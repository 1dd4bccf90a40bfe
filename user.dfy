/**
 * user.py: the earlier account object, with its own `logged_in` flag and
 * plain-text passwords, over a record store keyed by username.
 */
module LegacyUser {
  import opened Values

  /** The user database the legacy methods are handed. */
  class LegacyStore {
    var records: map<string, Json>

    constructor ()
      ensures records == map[]
    {
      records := map[];
    }

    /** `DbManager.fetch(db, user_name)`: the record, or None. */
    function Fetch(userName: string): (r: Option<Json>)
      reads this
      ensures r.Some? <==> userName in records
      ensures r.Some? ==> r.value == records[userName]
    {
      if userName in records then Some(records[userName]) else None
    }

    /** `does_user_exist(db, user_name)`: a record is there and it is not empty. */
    predicate Exists(userName: string)
      reads this
    {
      userName in records && Truthy(records[userName])
    }
  }

  /** The record `add` writes: the password, role "user" and an empty inbox. */
  function NewRecord(password: string): (r: Json)
    ensures r.Obj? && Truthy(r)
    ensures Subscript(r, "password") == Ok(Str(password))
    ensures Subscript(r, "role") == Ok(Str("user"))
    ensures Subscript(r, "inbox") == Ok(Obj([]))
  {
    var fs := [("password", Str(password)), ("role", Str("user")), ("inbox", Obj([]))];
    assert Lookup(fs, "role") == Lookup(fs[1..], "role");
    assert Lookup(fs, "inbox") == Lookup(fs[1..][1..], "inbox") by {
      assert Lookup(fs[1..], "inbox") == Lookup(fs[1..][1..], "inbox");
    }
    Obj(fs)
  }

  class User {
    var login: Option<string>
    var passphrase: Option<string>
    var role: string
    var loggedIn: bool
    var inbox: Json

    /** A new user is logged out, has role "user" and an empty inbox. */
    constructor ()
      ensures login == None && passphrase == None
      ensures role == "user" && !loggedIn && inbox == Obj([])
    {
      login := None;
      passphrase := None;
      role := "user";
      loggedIn := false;
      inbox := Obj([]);
    }

    /**
     * `log_in(db, user_name, password)`: True and logged in when the user
     * exists and the stored password matches; False for an unknown user; for
     * a wrong password it falls off the end and returns None with the flag as
     * it was. A record without a password raises as indexing it does.
     */
    method LogIn(db: LegacyStore, userName: string, password: string) returns (r: Result<Option<bool>, Exc>)
      modifies this
      ensures !db.Exists(userName) ==> r == Ok(Some(false)) && loggedIn == old(loggedIn)
      ensures db.Exists(userName) ==>
        var stored := Subscript(db.records[userName], "password");
        && (stored.Err? ==> r == Err(stored.error) && loggedIn == old(loggedIn))
        && (stored == Ok(Str(password)) ==> r == Ok(Some(true)) && loggedIn)
        && (stored.Ok? && stored != Ok(Str(password)) ==> r == Ok(None) && loggedIn == old(loggedIn))
      ensures login == old(login) && passphrase == old(passphrase) && role == old(role) && inbox == old(inbox)
    {
      if db.Exists(userName) {
        var stored := Subscript(db.Fetch(userName).value, "password");
        if stored.Err? {
          return Err(stored.error);
        }
        if stored.value == Str(password) {
          loggedIn := true;
          return Ok(Some(true));
        }
        return Ok(None);
      } else {
        return Ok(Some(false));
      }
    }

    /** `log_out()`: the flag is cleared and nothing else changes. */
    method LogOut()
      modifies this
      ensures !loggedIn
      ensures login == old(login) && passphrase == old(passphrase) && role == old(role) && inbox == old(inbox)
    {
      loggedIn := false;
    }
  }

  /** `User.add(db, user_name, password)`: False for an existing name; otherwise a new record and True. */
  method Add(db: LegacyStore, userName: string, password: string) returns (ok: bool)
    modifies db
    ensures ok <==> userName !in old(db.records)
    ensures ok ==> db.records == old(db.records)[userName := NewRecord(password)]
    ensures !ok ==> db.records == old(db.records)
  {
    if db.Fetch(userName).None? {
      db.records := db.records[userName := NewRecord(password)];
      return true;
    }
    return false;
  }

  /** `User.remove(db, user_name)`: True and the record removed iff the user exists; otherwise False and nothing changes. */
  method Remove(db: LegacyStore, userName: string) returns (ok: bool)
    modifies db
    ensures ok <==> old(db.Exists(userName))
    ensures ok ==> db.records == old(db.records) - {userName}
    ensures !ok ==> db.records == old(db.records)
  {
    if db.Exists(userName) {
      db.records := db.records - {userName};
      return true;
    }
    return false;
  }

  /** A user just added can log in with the password they were added with, and not with another. */
  lemma AddedUserAuthenticates(password: string, attempt: string)
    ensures Truthy(NewRecord(password))
    ensures (Subscript(NewRecord(password), "password") == Ok(Str(attempt))) <==> attempt == password
  {
  }
}
