/**
 * user_dao.py: the account records, one per username. The database behind
 * them is a map held by the store; the password hash (SHA-256 as hex) is a
 * function the store is given, so equal passwords always give equal hashes.
 */
module UserDao {
  import opened Values

  /** The value `save_user` writes: the hash, the email and the role from the dict, None where one is missing. */
  function Projection(userData: seq<(string, Json)>): (r: Json)
    ensures r.Obj? && UniqueKeys(r.fields) && Keys(r.fields) == {"password_hash", "email", "role"}
    ensures Lookup(r.fields, "password_hash") == Some(DictGet(userData, "password_hash"))
    ensures Lookup(r.fields, "email") == Some(DictGet(userData, "email"))
    ensures Lookup(r.fields, "role") == Some(DictGet(userData, "role"))
  {
    var fs := [("password_hash", DictGet(userData, "password_hash")),
               ("email", DictGet(userData, "email")),
               ("role", DictGet(userData, "role"))];
    assert Keys(fs[1..][1..]) == {"role"} by { assert fs[1..][1..][1..] == []; }
    assert UniqueKeys(fs[1..][1..]) by { assert fs[1..][1..][1..] == []; }
    assert Lookup(fs, "role") == Lookup(fs[1..][1..], "role");
    Obj(fs)
  }

  /** The key `save_user` stores under: the username when it is a non-empty string, nothing otherwise. */
  function SaveKey(userData: seq<(string, Json)>): (r: Option<string>)
    ensures r.Some? <==> exists u :: Lookup(userData, "username") == Some(Str(u)) && u != ""
    ensures r.Some? ==> Lookup(userData, "username") == Some(Str(r.value))
  {
    match Lookup(userData, "username")
    case Some(Str(u)) => if u != "" then Some(u) else None
    case _ => None
  }

  class UserStore {
    var records: map<string, Json>
    /** `UserDAO.hash_password` */
    const hash: string -> string

    constructor (hash: string -> string)
      ensures records == map[] && this.hash == hash
    {
      records := map[];
      this.hash := hash;
    }

    /** `get_user(username)`: the stored record, or None. */
    function GetUser(username: string): (r: Option<Json>)
      reads this
      ensures r.Some? <==> username in records
      ensures r.Some? ==> r.value == records[username]
    {
      if username in records then Some(records[username]) else None
    }

    /** `user_exists(username)`: `get(username) is not None`. */
    function UserExists(username: string): (r: bool)
      reads this
      ensures r <==> GetUser(username).Some?
    {
      username in records
    }

    /**
     * `save_user(user_data)`: the projection of the dict, under its username;
     * the username is the key, not part of the value. Without a username
     * nothing is written.
     */
    method SaveUser(userData: seq<(string, Json)>)
      modifies this
      ensures SaveKey(userData).Some? ==> records == old(records)[SaveKey(userData).value := Projection(userData)]
      ensures SaveKey(userData).None? ==> records == old(records)
    {
      var key := SaveKey(userData);
      if key.Some? {
        records := records[key.value := Projection(userData)];
      }
    }

    /** `delete_user(username)`: the key is gone, every other record is as it was. */
    method DeleteUser(username: string)
      modifies this
      ensures records == old(records) - {username}
    {
      records := records - {username};
    }
  }
}
