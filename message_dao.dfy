/**
 * message_dao.py: one inbox per user, a dict from message id to message, kept
 * in a store of its own beside the account records. The message id is the
 * SHA-1 (as hex) of the moment and the sender; the hash is a function the
 * store is given, and the moment, already written as `%m%d%Y%H%M%S`, is an
 * input.
 */
module MessageDao {
  import opened Values
  import opened UserDao

  const RequiredFields: set<string> := {"recipient", "sender", "from_email", "to_email", "subject", "body", "timestamp"}

  const NotADict: string := "Message data must be in a dictionary format"
  const BadRecipient: string := "Invalid recipient (username)"
  const MissingFields: string := "Missing required fields"
  const UsernameNotString: string := "Username must be a string"
  const UsernameEmpty: string := "Username cannot be empty"
  const IdNotInt: string := "Message id must be an integer"
  const ConcatError: string := "can only concatenate str (not \"NoneType\") to str"

  /** A non-blank string, as `isinstance(u, str) and u.strip()` accepts it. */
  predicate GoodName(username: Json) {
    username.Str? && !IsBlank(username.s)
  }

  /** `generate_message_id(message_data)`: the hash of the moment followed by the sender, who must be a string. */
  function MessageId(data: seq<(string, Json)>, dateTime: string, sha1: string -> string): (r: Result<string, Exc>)
    ensures r.Ok? <==> DictGet(data, "sender").Str?
    ensures r.Ok? ==> r.value == sha1(dateTime + DictGet(data, "sender").s)
    ensures r.Err? ==> r.error.TypeError?
  {
    match DictGet(data, "sender")
    case Str(sender) => Ok(sha1(dateTime + sender))
    case _ => Err(TypeError(ConcatError))
  }

  /**
   * The checks of `save_message` before it reads the store, in their order:
   * a dict, a non-blank recipient name, an id (which needs a string sender),
   * then all seven fields. The result is the id.
   */
  function Checked(username: Json, data: Json, dateTime: string, sha1: string -> string): (r: Result<string, Exc>)
    ensures !data.Obj? ==> r == Err(TypeError(NotADict))
    ensures data.Obj? && !GoodName(username) ==> r == Err(ValueError(BadRecipient))
    ensures r.Ok? <==> data.Obj? && GoodName(username) && MessageId(data.fields, dateTime, sha1).Ok? && RequiredFields <= Keys(data.fields)
    ensures r.Ok? ==> r == MessageId(data.fields, dateTime, sha1)
    ensures r.Err? && data.Obj? && GoodName(username) && MessageId(data.fields, dateTime, sha1).Ok? ==> r == Err(ValueError(MissingFields))
  {
    if !data.Obj? then Err(TypeError(NotADict))
    else if !GoodName(username) then Err(ValueError(BadRecipient))
    else
      match MessageId(data.fields, dateTime, sha1)
      case Err(e) => Err(e)
      case Ok(id) => if RequiredFields - Keys(data.fields) != {} then Err(ValueError(MissingFields)) else Ok(id)
  }

  /** The checks `get_all` shares: a string, not blank, naming an existing account. */
  function CheckedOwner(users: map<string, Json>, username: Json): (r: Result<string, Exc>)
    ensures r.Ok? <==> GoodName(username) && username.s in users
    ensures r.Ok? ==> r.value == username.s
    ensures !username.Str? ==> r == Err(TypeError(UsernameNotString))
    ensures username.Str? && IsBlank(username.s) ==> r == Err(ValueError(UsernameEmpty))
    ensures GoodName(username) && username.s !in users ==> r == Err(KeyError("User does not exist"))
  {
    if !username.Str? then Err(TypeError(UsernameNotString))
    else if IsBlank(username.s) then Err(ValueError(UsernameEmpty))
    else if username.s !in users then Err(KeyError("User does not exist"))
    else Ok(username.s)
  }

  function Stored(inboxes: map<string, Json>, u: string): Json {
    if u in inboxes then inboxes[u] else Null
  }

  /**
   * `get_all(username)` as written (message_dao.py:67-76): an empty or absent
   * inbox comes back wrapped as `{username: {}}`, a non-empty one as it is stored.
   */
  function GetAllAsWritten(users: map<string, Json>, inboxes: map<string, Json>, username: Json): Result<Json, Exc> {
    match CheckedOwner(users, username)
    case Err(e) => Err(e)
    case Ok(u) => if !Truthy(Stored(inboxes, u)) then Ok(Obj([(u, Obj([]))])) else Ok(Stored(inboxes, u))
  }

  /** `get_all(username)` as intended: always `{username: inbox}`, with `{}` for an empty or absent inbox. */
  function GetAll(users: map<string, Json>, inboxes: map<string, Json>, username: Json): (r: Result<Json, Exc>)
    ensures r.Err? <==> CheckedOwner(users, username).Err?
    ensures r.Err? ==> r.error == CheckedOwner(users, username).error
    ensures r.Ok? ==> r.value.Obj? && Keys(r.value.fields) == {username.s}
    ensures r.Ok? && Truthy(Stored(inboxes, username.s)) ==> Lookup(r.value.fields, username.s) == Some(Stored(inboxes, username.s))
    ensures r.Ok? && !Truthy(Stored(inboxes, username.s)) ==> Lookup(r.value.fields, username.s) == Some(Obj([]))
  {
    match CheckedOwner(users, username)
    case Err(e) => Err(e)
    case Ok(u) => Ok(Obj([(u, if Truthy(Stored(inboxes, u)) then Stored(inboxes, u) else Obj([]))]))
  }

  /** `user_inbox[username][message_id] = message_data`, then `save(username, user_inbox[username])`. */
  function Insert(inboxes: map<string, Json>, u: string, box: Json, id: string, data: Json): Result<map<string, Json>, Exc> {
    match Subscript(box, u)
    case Err(e) => Err(e)
    case Ok(inbox) =>
      match SetItem(inbox, id, data)
      case Err(e) => Err(e)
      case Ok(inbox') => Ok(inboxes[u := inbox'])
  }

  /** `save_message(username, message_data)` as written: the new inboxes, or the exception. */
  function SaveAsWritten(users: map<string, Json>, inboxes: map<string, Json>, username: Json, data: Json,
                         dateTime: string, sha1: string -> string): Result<map<string, Json>, Exc> {
    match Checked(username, data, dateTime, sha1)
    case Err(e) => Err(e)
    case Ok(id) =>
      match GetAllAsWritten(users, inboxes, username)
      case Err(e) => Err(e)
      case Ok(box) => Insert(inboxes, username.s, box, id, data)
  }

  /**
   * `save_message(username, message_data)` with `get_all` as intended: after
   * the checks, the recipient's inbox gains the message under its id and
   * keeps its other messages; every other inbox is untouched.
   */
  function Save(users: map<string, Json>, inboxes: map<string, Json>, username: Json, data: Json,
                dateTime: string, sha1: string -> string): (r: Result<map<string, Json>, Exc>)
    ensures Checked(username, data, dateTime, sha1).Err? ==> r == Err(Checked(username, data, dateTime, sha1).error)
    ensures Checked(username, data, dateTime, sha1).Ok? && CheckedOwner(users, username).Err? ==>
      r == Err(CheckedOwner(users, username).error)
    ensures Checked(username, data, dateTime, sha1).Ok? && CheckedOwner(users, username).Ok? ==>
      var u := username.s;
      var before := if Truthy(Stored(inboxes, u)) then Stored(inboxes, u) else Obj([]);
      && (r.Ok? <==> before.Obj?)
      && (r.Err? ==> r.error.TypeError?)
      && (r.Ok? ==>
          && r.value.Keys == inboxes.Keys + {u}
          && (forall v :: v in inboxes && v != u ==> r.value[v] == inboxes[v])
          && r.value[u].Obj?
          && Keys(r.value[u].fields) == Keys(before.fields) + {Checked(username, data, dateTime, sha1).value}
          && Lookup(r.value[u].fields, Checked(username, data, dateTime, sha1).value) == Some(data)
          && forall k :: k != Checked(username, data, dateTime, sha1).value ==> Lookup(r.value[u].fields, k) == Lookup(before.fields, k))
  {
    match Checked(username, data, dateTime, sha1)
    case Err(e) => Err(e)
    case Ok(id) =>
      match GetAll(users, inboxes, username)
      case Err(e) => Err(e)
      case Ok(box) => Insert(inboxes, username.s, box, id, data)
  }

  /**
   * As written, a second message to the same user is refused: the first one
   * makes the stored inbox non-empty, `get_all` then returns it without the
   * `{username: ...}` wrapper, and indexing it by the username raises KeyError
   * (unless a message id happens to equal the username). The intended save
   * accepts the second message.
   */
  lemma SecondSaveFailsAsWritten(users: map<string, Json>, inboxes: map<string, Json>, username: Json,
                                 first: Json, second: Json, t1: string, t2: string, sha1: string -> string)
    requires SaveAsWritten(users, inboxes, username, first, t1, sha1).Ok?
    requires Checked(username, second, t2, sha1).Ok?
    requires !Truthy(Stored(inboxes, username.s))
    requires Checked(username, first, t1, sha1).value != username.s
    ensures var after := SaveAsWritten(users, inboxes, username, first, t1, sha1).value;
      && SaveAsWritten(users, after, username, second, t2, sha1) == Err(KeyError(username.s))
      && Save(users, after, username, second, t2, sha1).Ok?
  {
    var u := username.s;
    var id := Checked(username, first, t1, sha1).value;
    var after := SaveAsWritten(users, inboxes, username, first, t1, sha1).value;
    assert Subscript(Obj([(u, Obj([]))]), u) == Ok(Obj([]));
    assert after[u] == Obj([(id, first)]);
    assert Truthy(Stored(after, u));
    assert !Lookup([(id, first)], u).Some?;
  }

  /** On an inbox that is still empty, the written save and the intended one do the same. */
  lemma FirstSaveAgrees(users: map<string, Json>, inboxes: map<string, Json>, username: Json, data: Json,
                        dateTime: string, sha1: string -> string)
    requires username.Str? && !Truthy(Stored(inboxes, username.s))
    ensures SaveAsWritten(users, inboxes, username, data, dateTime, sha1) == Save(users, inboxes, username, data, dateTime, sha1)
  {
  }

  /** Python's `s[i]` on a string: a one-character string, counting from the end for a negative index. */
  function CharAt(s: string, i: int): (r: Result<string, Exc>)
    ensures r.Ok? <==> -|s| <= i < |s|
    ensures r.Ok? && i >= 0 ==> r.value == [s[i]]
    ensures r.Ok? && i < 0 ==> r.value == [s[|s| + i]]
    ensures r.Err? ==> r.error == IndexError
  {
    if 0 <= i < |s| then Ok([s[i]])
    else if -|s| <= i < 0 then Ok([s[|s| + i]])
    else Err(IndexError)
  }

  /** `isinstance(x, int)`, which holds for booleans too, and the integer it is. */
  function AsInt(j: Json): Option<int> {
    match j
    case Int(i) => Some(i)
    case Bool(b) => Some(if b then 1 else 0)
    case _ => None
  }

  /**
   * The store key `delete_message(username, message_id)` deletes, or the
   * exception: it checks a string user and an integer id, a non-blank user,
   * and then deletes the key `username[message_id]` — one character of the
   * name, not the message.
   */
  function DeletedKey(username: Json, messageId: Json): (r: Result<string, Exc>)
    ensures !username.Str? ==> r == Err(TypeError(UsernameNotString))
    ensures username.Str? && AsInt(messageId).None? ==> r == Err(TypeError(IdNotInt))
    ensures username.Str? && AsInt(messageId).Some? && IsBlank(username.s) ==> r == Err(ValueError(UsernameEmpty))
    ensures r.Ok? <==> GoodName(username) && AsInt(messageId).Some? && -|username.s| <= AsInt(messageId).value < |username.s|
    ensures r.Ok? ==> |r.value| == 1
  {
    if !username.Str? then Err(TypeError(UsernameNotString))
    else if AsInt(messageId).None? then Err(TypeError(IdNotInt))
    else if IsBlank(username.s) then Err(ValueError(UsernameEmpty))
    else CharAt(username.s, AsInt(messageId).value)
  }

  class MailStore {
    var inboxes: map<string, Json>
    const users: UserStore
    const sha1: string -> string

    constructor (users: UserStore, sha1: string -> string)
      ensures inboxes == map[] && this.users == users && this.sha1 == sha1
    {
      inboxes := map[];
      this.users := users;
      this.sha1 := sha1;
    }

    /** `create_inbox(username)`: an empty inbox under the name. */
    method CreateInbox(username: string)
      modifies this
      ensures inboxes == old(inboxes)[username := Obj([])]
    {
      inboxes := inboxes[username := Obj([])];
    }

    /** `get_all(username)` */
    function GetAllMessages(username: Json): Result<Json, Exc>
      reads this, users
    {
      GetAll(users.records, inboxes, username)
    }

    /**
     * `save_message(username, message_data)`: the store after the call is the
     * one `Save` describes; on an exception it is unchanged.
     */
    method SaveMessage(username: Json, data: Json, dateTime: string) returns (r: Result<(), Exc>)
      modifies this
      ensures var s := Save(users.records, old(inboxes), username, data, dateTime, sha1);
        && (r.Ok? <==> s.Ok?)
        && (s.Ok? ==> inboxes == s.value)
        && (s.Err? ==> r == Err(s.error) && inboxes == old(inboxes))
    {
      var id := Checked(username, data, dateTime, sha1);
      if id.Err? {
        return Err(id.error);
      }
      var userInbox := GetAllMessages(username);
      if userInbox.Err? {
        return Err(userInbox.error);
      }
      var after := Insert(inboxes, username.s, userInbox.value, id.value, data);
      if after.Err? {
        return Err(after.error);
      }
      inboxes := after.value;
      return Ok(());
    }

    /** `delete_message(username, message_id)`: after the checks, the key `username[message_id]` is removed. */
    method DeleteMessage(username: Json, messageId: Json) returns (r: Result<(), Exc>)
      modifies this
      ensures r.Ok? <==> DeletedKey(username, messageId).Ok?
      ensures r.Ok? ==> inboxes == old(inboxes) - {DeletedKey(username, messageId).value}
      ensures r.Err? ==> r.error == DeletedKey(username, messageId).error && inboxes == old(inboxes)
    {
      var key := DeletedKey(username, messageId);
      if key.Err? {
        return Err(key.error);
      }
      inboxes := inboxes - {key.value};
      return Ok(());
    }
  }
}
