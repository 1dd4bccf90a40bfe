/**
 * user_model.py: the account operations the server calls — log in, register,
 * delete, and delivering a message into a recipient's record — over the
 * records of a UserDao.UserStore.
 */
module UserModel {
  import opened Values
  import opened UserDao

  /** A `User` instance. The username is the account's key; the other fields are whatever the caller passed. */
  datatype User = User(username: string, password: Json, email: Json, role: Json, inbox: Json, isLoggedIn: bool)

  const DefaultRole: Json := Str("user")

  /** `User(username, password, email, role="user", inbox=None)`: a new user is not logged in; an empty inbox is kept as None. */
  function NewUser(username: string, password: Json, email: Json, role: Json := DefaultRole, inbox: Json := Null): (u: User)
    ensures !u.isLoggedIn
    ensures u.username == username && u.password == password && u.email == email && u.role == role
    ensures Truthy(inbox) ==> u.inbox == inbox
    ensures !Truthy(inbox) ==> u.inbox == Null
  {
    User(username, password, email, role, if Truthy(inbox) then inbox else Null, false)
  }

  // ---------------------------------------------------------------------
  // log_in

  /** The credentials check passes: a non-empty record whose stored hash is the hash of `password`. */
  predicate Authentic(records: map<string, Json>, hash: string -> string, username: string, password: string) {
    && username in records
    && Truthy(records[username])
    && Subscript(records[username], "password_hash") == Ok(Str(hash(password)))
  }

  const UnexpectedKeyword: string := "User.__init__() got an unexpected keyword argument 'password_hash'"

  /**
   * `User.log_in` as written (user_model.py:15-22): once the password matches,
   * `cls(**user_data)` passes the record's keys as keyword arguments, and the
   * record has a `password_hash` key that `__init__` does not take.
   */
  function LogInAsWritten(records: map<string, Json>, hash: string -> string, username: string, password: string): Result<Option<User>, Exc> {
    if username !in records || !Truthy(records[username]) then Ok(None)
    else
      match Subscript(records[username], "password_hash")
      case Err(e) => Err(e)
      case Ok(h) => if h == Str(hash(password)) then Err(TypeError(UnexpectedKeyword)) else Ok(None)
  }

  /**
   * `User.log_in` as intended: a logged-in user built from the username and the
   * record's fields when the password matches, None when the user is unknown
   * or the password does not match. A record that is not a dict, or lacks the
   * hash, raises as indexing it does.
   */
  function LogIn(records: map<string, Json>, hash: string -> string, username: string, password: string): (r: Result<Option<User>, Exc>)
    ensures r.Ok? && r.value.Some? <==> Authentic(records, hash, username, password)
    ensures r.Err? <==> username in records && Truthy(records[username]) && Subscript(records[username], "password_hash").Err?
    ensures r.Ok? && r.value.Some? ==>
      var u := r.value.value;
      && u.isLoggedIn && u.username == username && u.password == Str(hash(password))
      && u.email == DictGet(records[username].fields, "email")
      && u.role == DictGet(records[username].fields, "role")
  {
    if username !in records || !Truthy(records[username]) then Ok(None)
    else
      var rec := records[username];
      match Subscript(rec, "password_hash")
      case Err(e) => Err(e)
      case Ok(h) =>
        if h == Str(hash(password)) then
          Ok(Some(User(username, h, DictGet(rec.fields, "email"), DictGet(rec.fields, "role"), Null, true)))
        else Ok(None)
  }

  /**
   * As written, no login ever succeeds: where the intended check lets the
   * user in, the written one raises TypeError; everywhere else the two agree.
   */
  lemma LogInAsWrittenNeverSucceeds(records: map<string, Json>, hash: string -> string, username: string, password: string)
    ensures Authentic(records, hash, username, password) ==>
      LogInAsWritten(records, hash, username, password) == Err(TypeError(UnexpectedKeyword))
    ensures !Authentic(records, hash, username, password) ==>
      LogInAsWritten(records, hash, username, password) == LogIn(records, hash, username, password)
  {
  }

  // ---------------------------------------------------------------------
  // register and delete_account

  /** The dict `register` hands to `save_user`. */
  function RegisterData(username: string, passwordHash: string, email: string, role: string): seq<(string, Json)> {
    [("username", Str(username)), ("password_hash", Str(passwordHash)), ("email", Str(email)), ("role", Str(role))]
  }

  /** What `register` stores: the hash of the password (never the password itself), the email and the role. */
  lemma {:induction false} RegistrationRecord(hash: string -> string, username: string, password: string, email: string, role: string)
    ensures var rec := Projection(RegisterData(username, hash(password), email, role));
      && Lookup(rec.fields, "password_hash") == Some(Str(hash(password)))
      && Lookup(rec.fields, "email") == Some(Str(email))
      && Lookup(rec.fields, "role") == Some(Str(role))
    ensures SaveKey(RegisterData(username, hash(password), email, role)) == (if username != "" then Some(username) else None)
  {
    var d := RegisterData(username, hash(password), email, role);
    assert d[1..][1..][1..][0] == ("role", Str(role));
    assert DictGet(d, "role") == Str(role) by {
      assert Lookup(d[1..][1..], "role") == Lookup(d[1..][1..][1..], "role");
      assert Lookup(d[1..], "role") == Lookup(d[1..][1..], "role");
    }
    assert DictGet(d, "email") == Str(email) by {
      assert Lookup(d, "email") == Lookup(d[1..][1..], "email");
    }
    assert DictGet(d, "password_hash") == Str(hash(password)) by {
      assert Lookup(d, "password_hash") == Lookup(d[1..], "password_hash");
    }
  }

  /**
   * `User.register(username, password, email, role="user")`: refuses a
   * username that exists and changes nothing; otherwise saves the record and
   * reports success. An empty username reports success although `save_user`
   * writes nothing for it.
   */
  method Register(store: UserStore, username: string, password: string, email: string, role: string := "user") returns (ok: bool)
    modifies store
    ensures ok <==> username !in old(store.records)
    ensures ok && username != "" ==>
      store.records == old(store.records)[username := Projection(RegisterData(username, store.hash(password), email, role))]
    ensures !ok || username == "" ==> store.records == old(store.records)
  {
    if !store.UserExists(username) {
      var userData := RegisterData(username, store.hash(password), email, role);
      RegistrationRecord(store.hash, username, password, email, role);
      store.SaveUser(userData);
      return true;
    }
    return false;
  }

  /** `User.delete_account(username)`: True and the record removed iff it existed; otherwise False and nothing changes. */
  method DeleteAccount(store: UserStore, username: string) returns (ok: bool)
    modifies store
    ensures ok <==> username in old(store.records)
    ensures store.records == old(store.records) - {username}
  {
    if store.UserExists(username) {
      store.DeleteUser(username);
      return true;
    }
    return false;
  }

  // ---------------------------------------------------------------------
  // send_message

  /** The moment `send_message` reads from the clock. */
  datatype Stamp = Stamp(day: nat, month: nat, year: nat, time: string)

  function Decimal(n: nat): (s: string)
    ensures |s| > 0
    decreases n
  {
    if n < 10 then [('0' as int + n) as char] else Decimal(n / 10) + [('0' as int + n % 10) as char]
  }

  /** The inbox key `(day, month, year, time, sender)`, written out as Python prints the tuple. */
  function InboxKey(s: Stamp, sender: string): string {
    "(" + Decimal(s.day) + ", " + Decimal(s.month) + ", " + Decimal(s.year) + ", '" + s.time + "', '" + sender + "')"
  }

  /** `recipient_data["inbox"][key] = message` on a record: the record with the grown inbox, or the exception. */
  function Delivered(rec: Json, key: string, message: Json): (r: Result<Json, Exc>)
    ensures r.Ok? <==> Subscript(rec, "inbox").Ok? && Subscript(rec, "inbox").value.Obj?
    ensures r.Ok? ==> r.value.Obj? && Keys(r.value.fields) == Keys(rec.fields)
    ensures r.Ok? ==>
      var inbox := Subscript(rec, "inbox").value;
      && Subscript(r.value, "inbox").Ok?
      && (var inbox' := Subscript(r.value, "inbox").value;
          && inbox'.Obj?
          && Lookup(inbox'.fields, key) == Some(message)
          && forall k :: k != key ==> Lookup(inbox'.fields, k) == Lookup(inbox.fields, k))
    ensures r.Err? && Subscript(rec, "inbox").Err? ==> r == Err(Subscript(rec, "inbox").error)
  {
    match Subscript(rec, "inbox")
    case Err(e) => Err(e)
    case Ok(inbox) =>
      match SetItem(inbox, key, message)
      case Err(e) => Err(e)
      case Ok(inbox') =>
        LookupPutSame(rec.fields, "inbox", inbox');
        Ok(SetItem(rec, "inbox", inbox').value)
  }

  /**
   * `user.send_message(recipient, message)`: False when there is no such
   * recipient; otherwise the message goes into the recipient's stored inbox
   * (the record is changed in place) under the key made of the moment and the
   * sender's name, and the result is True.
   */
  method SendMessage(store: UserStore, sender: User, recipient: string, message: Json, now: Stamp) returns (r: Result<bool, Exc>)
    modifies store
    ensures r == Ok(false) <==> recipient !in old(store.records) || !Truthy(old(store.records)[recipient])
    ensures r == Ok(true) ==>
      var d := Delivered(old(store.records)[recipient], InboxKey(now, sender.username), message);
      d.Ok? && store.records == old(store.records)[recipient := d.value]
    ensures r.Err? ==>
      && Delivered(old(store.records)[recipient], InboxKey(now, sender.username), message) == Err(r.error)
      && store.records == old(store.records)
  {
    var recipientData := store.GetUser(recipient);
    if recipientData.Some? && Truthy(recipientData.value) {
      var d := Delivered(recipientData.value, InboxKey(now, sender.username), message);
      if d.Err? {
        return Err(d.error);
      }
      store.records := store.records[recipient := d.value];
      return Ok(true);
    }
    return Ok(false);
  }

  /** An account made by `register` has no inbox: sending it a message raises KeyError. */
  lemma SendToRegisteredAccountRaises(userData: seq<(string, Json)>, key: string, message: Json)
    ensures Delivered(Projection(userData), key, message) == Err(KeyError("inbox"))
  {
  }
}
