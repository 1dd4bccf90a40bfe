/**
 * server.py: the earlier revision of the server, which keeps the user and
 * the command tables as its own fields and dispatches on the user's role;
 * and its own copy of the receiving half of the wire protocol.
 */
module Server {
  import opened Values
  import opened Communication
  import opened Session
  import opened Utilities
  import opened UserDao
  import opened UserModel
  import opened Menu

  // ---------------------------------------------------------------------
  // server.py's receive

  function Join(parts: seq<seq<byte>>): seq<byte> {
    if parts == [] then [] else Join(parts[..|parts| - 1]) + parts[|parts| - 1]
  }

  lemma JoinSnoc(parts: seq<seq<byte>>, p: seq<byte>)
    ensures Join(parts + [p]) == Join(parts) + p
  {
    assert (parts + [p])[..|parts|] == parts;
  }

  const ServerBuffer: nat := 1024

  /**
   * What server.py's `receive` makes of the stream `s` when its one
   * `recv(4)` returns the first `h` bytes: ValueError for no header at all;
   * otherwise the header, however short, is the length, and the body is that
   * many bytes or, when the peer closes first, whatever came before the close.
   */
  function ReadFrameAsOlder(c: Codec, s: seq<byte>, h: nat): (Result<Json, Exc>, seq<byte>)
    requires h <= 4 && h <= |s|
  {
    if h == 0 then (Err(ValueError("")), s)
    else
      var len := FromBe(s[..h]);
      var got := if h + len <= |s| then len else |s| - h;
      (Decoded(c, s[h..h + got]), s[h + got..])
  }

  /**
   * `Server.receive()`: one `recv(4)` for the header, then reads of at most
   * min(msg_len - bytes_recv, 1024) bytes until msg_len bytes are in, or until
   * a read comes back empty; the parts are joined and decoded. `h` is how
   * many bytes the header read returned.
   */
  method ReceiveFrame(ch: Channel, codec: Codec) returns (r: Result<Json, Exc>, ghost h: nat)
    modifies ch
    ensures h <= 4 && h <= |old(ch.inbound)| && (h == 0 <==> old(ch.inbound) == [])
    ensures (r, ch.inbound) == ReadFrameAsOlder(codec, old(ch.inbound), h)
    ensures ch.outbound == old(ch.outbound)
  {
    ghost var s := ch.inbound;
    var header := ch.Recv(4);
    h := |header|;
    if header == [] {
      return Err(ValueError("")), h;
    }
    var msgLen := FromBe(header);
    var msgParts: seq<seq<byte>> := [];
    var bytesRecv := 0;
    while bytesRecv < msgLen
      invariant bytesRecv == |Join(msgParts)| <= msgLen && h + bytesRecv <= |s|
      invariant Join(msgParts) == s[h..h + bytesRecv] && ch.inbound == s[h + bytesRecv..]
      invariant ch.outbound == old(ch.outbound)
      decreases msgLen - bytesRecv
    {
      var part := ch.Recv(Min(msgLen - bytesRecv, ServerBuffer));
      if part == [] {
        assert |s| == h + bytesRecv;
        break;
      }
      JoinSnoc(msgParts, part);
      msgParts := msgParts + [part];
      bytesRecv := bytesRecv + |part|;
    }
    r := Decoded(codec, Join(msgParts));
  }

  /** The body it reads is never longer than the header announces; it is shorter only when the peer closed early. */
  lemma OlderBodyBounded(c: Codec, s: seq<byte>, h: nat)
    requires 0 < h <= 4 && h <= |s|
    ensures |s| - |ReadFrameAsOlder(c, s, h).1| - h <= FromBe(s[..h])
    ensures |s| - |ReadFrameAsOlder(c, s, h).1| - h < FromBe(s[..h]) ==> ReadFrameAsOlder(c, s, h).1 == []
  {
  }

  /** With the header read whole, a frame `send` wrote is read back as the message sent. */
  lemma OlderReadsWholeFrame(c: Codec, msg: Json, rest: seq<byte>)
    requires Faithful(c) && WellFormed(msg) && Outgoing(c, msg).Ok?
    ensures ReadFrameAsOlder(c, Outgoing(c, msg).value + rest, 4) == (Ok(Enveloped(msg)), rest)
  {
    FrameRoundTrip(c, msg, rest);
  }

  // ---------------------------------------------------------------------
  // The Server class

  const Version: string := "1.1.0"
  const BuildDate: string := "2023-12-03"
  const Host: string := "127.0.0.1"
  const NoGetText: string := "get"
  const AddUserFields: seq<string> := ["username", "password", "email", "user role"]
  const HelpText: string := "This server can run the following commands: "

  /** What `run_main_menu` sends a logged-in user of role `role`: that role's main menu, or nothing for any other role. */
  function MainMenuSent(c: MenuConfig, role: Json): seq<Event> {
    if role == Str("admin") then [Sent(Reply(Str("Admin Main Menu"), Listing(c.admin), "success"))]
    else if role == Str("user") then [Sent(Reply(Str("User Main Menu"), Listing(c.user), "success"))]
    else []
  }

  /** The question the `delete` command asks before it deletes. */
  function ConfirmDeletion(username: string): Envelope {
    Reply(Str("Are you sure you want to delete user " + username + "? Y/N"), Null, "success")
  }

  /** `not self.user or not self.user.is_logged_in` */
  predicate SignedOut(user: Option<User>) {
    user.None? || !user.value.isLoggedIn
  }

  class Server {
    var user: Option<User>
    var userCommands: seq<(string, Json)>
    var adminCommands: seq<(string, Json)>
    const conv: Conversation
    const store: UserStore
    /** The `login_menu` and `manage_users_menu` tables of the menu configuration. */
    const config: MenuConfig
    /** What `calculate_uptime` returns when asked. */
    const uptime: string

    constructor (conv: Conversation, store: UserStore, config: MenuConfig, uptime: string)
      ensures user == None && userCommands == [] && adminCommands == []
      ensures this.conv == conv && this.store == store && this.config == config && this.uptime == uptime
    {
      user := None;
      userCommands := [];
      adminCommands := [];
      this.conv := conv;
      this.store := store;
      this.config := config;
      this.uptime := uptime;
    }

    // -------------------------------------------------------------------
    // What the operations do. In these predicates `old` is the state before
    // the operation runs and `r` is what it returns or raises.

    /** The user and both command tables are as they were. */
    twostate predicate TablesKept()
      reads this
    {
      user == old(user) && userCommands == old(userCommands) && adminCommands == old(adminCommands)
    }

    /** The client's pending replies, whether the connection is closed, and the accounts are as they were. */
    twostate predicate InputKept()
      reads conv, store
    {
      conv.incoming == old(conv.incoming) && conv.closed == old(conv.closed) && store.records == old(store.records)
    }

    /** One send of `e`: recorded after the old trace on an open connection; OSError and nothing recorded on a closed one. */
    twostate predicate SentOne(e: Envelope, new r: Result<(), Exc>)
      reads conv
    {
      && (!conv.closed ==> r.Ok? && conv.trace == old(conv.trace) + [Sent(e)])
      && (conv.closed ==> r == Err(OSError) && conv.trace == old(conv.trace))
    }

    /**
     * A form of `fields` that cannot be completed: OSError and nothing
     * recorded on a closed connection; when the client's replies run out, its
     * end-of-stream error after the unanswered prompt. The accounts stay as
     * they were.
     */
    twostate predicate FormFails(fields: seq<string>, new r: Result<(), Exc>)
      reads conv, store
    {
      && (old(conv.closed) && fields != [] ==>
            r == Err(OSError) && conv.trace == old(conv.trace) && conv.incoming == old(conv.incoming) && store.records == old(store.records))
      && (!old(conv.closed) && |fields| > |old(conv.incoming)| ==>
            && r == Err(conv.eofError) && conv.incoming == [] && store.records == old(store.records)
            && conv.trace == old(conv.trace) + Abandoned(fields, old(conv.incoming)))
    }

    /**
     * `register(fields)`: a completed form registers its answers with the
     * default role and reports, the success envelope carrying the current
     * command table.
     */
    twostate predicate RegisterEffect(fields: seq<string>, new r: Result<(), Exc>)
      reads this, conv, store
    {
      && conv.closed == old(conv.closed)
      && FormFails(fields, r)
      && ((!old(conv.closed) || fields == []) && |fields| <= |old(conv.incoming)| ==>
        var replies := old(conv.incoming)[..|fields|];
        var a := Answers(fields, replies);
        var ok := Answer(a, "username") !in old(store.records);
        && conv.incoming == old(conv.incoming)[|fields|..]
        && store.records == Registered(old(store.records), store.hash, a, "user")
        && (!old(conv.closed) ==>
              && r.Ok?
              && conv.trace == old(conv.trace) + Exchange(fields, replies)
                   + [Sent(if ok then Reply(Str(SignedUpText), Listing(userCommands), "success") else Reply(Str(FailedText), Null, "error"))])
        && (old(conv.closed) ==> r == Err(OSError) && conv.trace == old(conv.trace)))
    }

    /**
     * `log_in`'s first attempt: OSError on a closed connection, the
     * end-of-stream error when the client leaves the form; otherwise what
     * `User.log_in` makes of the two replies decides. Its exception escapes;
     * a user is logged in, greeted and shown the main menu of the role; None
     * is answered with the `error` envelope, after which the loop asks again.
     */
    twostate predicate LogInEffect(new r: Result<(), Exc>)
      reads this, conv, store
    {
      && (old(conv.closed) ==>
            r == Err(OSError) && user == old(user) && conv.trace == old(conv.trace) && conv.incoming == old(conv.incoming))
      && (!old(conv.closed) && |old(conv.incoming)| < 2 ==>
            && r == Err(conv.eofError) && user == old(user) && conv.incoming == []
            && conv.trace == old(conv.trace) + Abandoned(LoginFields, old(conv.incoming)))
      && (!old(conv.closed) && |old(conv.incoming)| >= 2 ==>
        var replies := old(conv.incoming)[..2];
        var res := Attempt(old(store.records), store.hash, replies);
        var tried := old(conv.trace) + Exchange(LoginFields, replies);
        && (res.Err? ==> r == Err(res.error) && user == old(user) && conv.incoming == old(conv.incoming)[2..] && conv.trace == tried)
        && (res.Ok? && res.value.Some? ==>
              && r.Ok? && user == res.value && conv.incoming == old(conv.incoming)[2..]
              && (res.value.value.role == Str("admin") ==> adminCommands == config.admin)
              && (res.value.value.role == Str("user") ==> userCommands == config.user)
              && conv.trace == tried + [Sent(Reply(Str(LoggedInText), Null, "success"))] + MainMenuSent(config, res.value.value.role))
        && (res.Ok? && res.value.None? ==> tried + [Sent(Reply(Str(BadLoginText), Null, "error"))] <= conv.trace))
    }

    /** `log_out`: the user forgotten; on an open connection the logged-out text and the logged-out menu. */
    twostate predicate LogOutEffect(new r: Result<(), Exc>)
      reads this, conv
    {
      && user == None && adminCommands == old(adminCommands)
      && conv.incoming == old(conv.incoming) && conv.closed == old(conv.closed)
      && (!conv.closed ==>
            && userCommands == config.loggedOut && r.Ok?
            && conv.trace == old(conv.trace) + [Sent(Reply(Str(LoggedOutText), Null, "success")),
                                                Sent(Reply(Str("Please log in or register"), Listing(config.loggedOut), "success"))])
      && (conv.closed ==> userCommands == old(userCommands) && r == Err(OSError) && conv.trace == old(conv.trace))
    }

    /**
     * `run_user_menu(command)`: a case-folded command of the user's table
     * runs; anything else is answered with an `error` envelope re-sending
     * that table. Only `help` and `sign out` send anything.
     */
    twostate predicate UserMenuEffect(command: string, new r: Result<(), Exc>)
      reads this, conv, store
    {
      var cmd := Lower(command);
      && conv.closed == old(conv.closed) && conv.incoming == old(conv.incoming) && store.records == old(store.records)
      && (cmd !in Keys(old(userCommands)) ==> TablesKept() && SentOne(UnknownReply(old(userCommands)), r))
      && (cmd in Keys(old(userCommands)) && cmd == "help" ==>
            TablesKept() && SentOne(Reply(Str(HelpText), Listing(old(userCommands)), "success"), r))
      && (cmd in Keys(old(userCommands)) && cmd == "info" ==>
            TablesKept() && r == Err(AttributeError(NoGetText)) && conv.trace == old(conv.trace))
      && (cmd in Keys(old(userCommands)) && cmd == "sign out" ==> LogOutEffect(r))
      && (cmd in Keys(old(userCommands)) && cmd !in {"help", "info", "sign out"} ==>
            TablesKept() && r == Ok(()) && conv.trace == old(conv.trace))
    }

    /**
     * `run_admin_menu(command)`: a case-folded command of the administrator's
     * table runs; anything else is answered with an `error` envelope
     * re-sending the table. `users` runs the user-management submenu, whose
     * table is sent first and stays in `adminCommands` after it returns.
     */
    twostate predicate AdminMenuEffect(command: string, new r: Result<(), Exc>)
      reads this, conv, store
    {
      var cmd := Lower(command);
      var known := cmd in Keys(old(adminCommands));
      && |conv.incoming| <= |old(conv.incoming)|
      && (!known ==> TablesKept() && InputKept() && SentOne(UnknownReply(old(adminCommands)), r))
      && (known && cmd == "info" ==>
            TablesKept() && InputKept() && SentOne(Reply(Str(FormatServerInfo(Version, BuildDate)), Null, "success"), r))
      && (known && cmd == "uptime" ==>
            TablesKept() && InputKept() && SentOne(Reply(Str("server uptime (hh:mm:ss): " + uptime), Null, "success"), r))
      && (known && cmd == "help" ==>
            TablesKept() && InputKept() && SentOne(Reply(Str(HelpText), Listing(old(adminCommands)), "success"), r))
      && (known && cmd == "close" ==>
            && TablesKept() && r == Err(SystemExit) && conv.closed
            && conv.incoming == old(conv.incoming) && conv.trace == old(conv.trace) && store.records == old(store.records))
      && (known && cmd == "users" ==>
            && user == old(user) && userCommands == old(userCommands) && conv.closed == old(conv.closed)
            && (r.Ok? ==> adminCommands == config.manageUsers)
            && (!old(conv.closed) ==>
                  |conv.trace| > |old(conv.trace)|
                  && conv.trace[|old(conv.trace)|] == Sent(Reply(Str(MenuTitle(ManageUsersMenu)), Listing(config.manageUsers), "success"))))
      && (known && cmd == "sign out" ==> LogOutEffect(r) && store.records == old(store.records))
      && (known && cmd !in {"info", "uptime", "help", "close", "users", "sign out"} ==>
            TablesKept() && InputKept() && r == Ok(()) && conv.trace == old(conv.trace))
    }

    /**
     * The `add` command: a completed form of the four fields registers the
     * answers with the role given and reports it by name.
     */
    twostate predicate AddUserEffect(new r: Result<(), Exc>)
      reads conv, store
    {
      && conv.closed == old(conv.closed) && |conv.incoming| <= |old(conv.incoming)|
      && FormFails(AddUserFields, r)
      && (!old(conv.closed) && |AddUserFields| <= |old(conv.incoming)| ==>
        var replies := old(conv.incoming)[..4];
        var a := Answers(AddUserFields, replies);
        var username := Answer(a, "username");
        && r.Ok? && conv.incoming == old(conv.incoming)[4..]
        && store.records == Registered(old(store.records), store.hash, a, Answer(a, "user role"))
        && conv.trace == old(conv.trace) + Exchange(AddUserFields, replies)
             + [Sent(if username !in old(store.records) then Reply(Str("User " + username + " added successfully!"), Null, "success")
                     else Reply(Str(FailedText), Null, "error"))])
    }

    /**
     * The `delete` command: the username, the question, the answer, and only
     * on "Y" (any case) the deletion and its report.
     */
    twostate predicate DeleteUserEffect(new r: Result<(), Exc>)
      reads conv, store
    {
      && conv.closed == old(conv.closed) && |conv.incoming| <= |old(conv.incoming)|
      && FormFails(["username"], r)
      && (!old(conv.closed) && |old(conv.incoming)| >= 1 ==>
        var username := old(conv.incoming)[0];
        var asked := old(conv.trace) + Exchange(["username"], [username]) + [Sent(ConfirmDeletion(username))];
        && (|old(conv.incoming)| == 1 ==>
              r == Err(conv.eofError) && conv.incoming == [] && conv.trace == asked && store.records == old(store.records))
        && (|old(conv.incoming)| >= 2 ==>
              var confirmed := Upper(old(conv.incoming)[1]) == "Y";
              && r.Ok? && conv.incoming == old(conv.incoming)[2..]
              && store.records == (if confirmed then old(store.records) - {username} else old(store.records))
              && conv.trace == asked + [Got(old(conv.incoming)[1])]
                   + (if confirmed then [Sent(DeletionReply(username, username in old(store.records)))] else [])))
    }

    // -------------------------------------------------------------------
    // The operations

    /**
     * `register(required_fields)`: ask for the form, register with the
     * default role, report. Every caller passes a form with the username,
     * password and email fields, so reading them back never raises KeyError.
     */
    method Register(requiredFields: seq<string>) returns (r: Result<(), Exc>)
      modifies conv, store
      ensures |conv.incoming| <= |old(conv.incoming)|
      ensures RegisterEffect(requiredFields, r)
    {
      var input := GetUserInput(conv, requiredFields);
      if input.Err? {
        return Err(input.error);
      }
      var a := input.value;
      var ok := UserModel.Register(store, Answer(a, "username"), Answer(a, "password"), Answer(a, "email"));
      if ok {
        r := conv.Send(Str(SignedUpText), Listing(userCommands));
      } else {
        r := conv.Send(Str(FailedText), Null, "error");
      }
    }

    /**
     * One pass of `log_in`'s loop. It is `done` unless `User.log_in` turned
     * the replies down; then the `error` envelope has been sent and the loop
     * asks again.
     */
    method LogInAttempt() returns (r: Result<(), Exc>, done: bool)
      modifies this, conv
      ensures conv.closed == old(conv.closed) && |conv.incoming| <= |old(conv.incoming)|
      ensures done && r.Ok? ==> user.Some? && user.value.isLoggedIn
      ensures done && r.Ok? ==> exists password :: UserModel.LogIn(store.records, store.hash, user.value.username, password) == Ok(user)
      ensures done ==> LogInEffect(r)
      ensures !done ==>
        && !old(conv.closed) && |old(conv.incoming)| >= 2 && user == None
        && Attempt(store.records, store.hash, old(conv.incoming)[..2]) == Ok(None)
        && conv.incoming == old(conv.incoming)[2..]
        && conv.trace == old(conv.trace) + Exchange(LoginFields, old(conv.incoming)[..2]) + [Sent(Reply(Str(BadLoginText), Null, "error"))]
    {
      var input := GetUserInput(conv, LoginFields);
      if input.Err? {
        return Err(input.error), true;
      }
      ghost var replies := old(conv.incoming)[..2];
      ghost var tried := old(conv.trace) + Exchange(LoginFields, replies);
      assert conv.trace == tried && conv.incoming == old(conv.incoming)[2..];
      var a := input.value;
      var res := UserModel.LogIn(store.records, store.hash, Answer(a, "username"), Answer(a, "password"));
      assert res == Attempt(store.records, store.hash, replies);
      if res.Err? {
        return Err(res.error), true;
      }
      user := res.value;
      if user.Some? {
        assert UserModel.LogIn(store.records, store.hash, user.value.username, Answer(a, "password")) == Ok(user);
        var _ := conv.Send(Str(LoggedInText));
        assert conv.trace == tried + [Sent(Reply(Str(LoggedInText), Null, "success"))];
        r := RunMainMenu();
        return r, true;
      }
      r := conv.Send(Str(BadLoginText), Null, "error");
      done := false;
    }

    /**
     * `log_in()`: ask for username and password until they are right, then
     * show the user's main menu. It ends only then, or when the connection
     * does.
     */
    method LogIn() returns (r: Result<(), Exc>)
      modifies this, conv
      ensures conv.closed == old(conv.closed) && |conv.incoming| <= |old(conv.incoming)|
      ensures r.Ok? ==> user.Some? && user.value.isLoggedIn
      ensures r.Ok? ==> exists password :: UserModel.LogIn(store.records, store.hash, user.value.username, password) == Ok(user)
      ensures LogInEffect(r)
    {
      ghost var first := true;
      while true
        invariant conv.closed == old(conv.closed) && |conv.incoming| <= |old(conv.incoming)|
        invariant first ==> user == old(user) && conv.trace == old(conv.trace) && conv.incoming == old(conv.incoming)
        invariant !first ==>
          && !old(conv.closed) && |old(conv.incoming)| >= 2
          && Attempt(store.records, store.hash, old(conv.incoming)[..2]) == Ok(None)
          && old(conv.trace) + Exchange(LoginFields, old(conv.incoming)[..2]) + [Sent(Reply(Str(BadLoginText), Null, "error"))] <= conv.trace
        decreases |conv.incoming|
      {
        var done;
        r, done := LogInAttempt();
        if done {
          return;
        }
        first := false;
      }
    }

    /**
     * `log_out()`: forget the user, say so, and show the logged-out menu.
     * When the first send fails its exception leaves `log_out` at once, so the
     * menu tables stay as they were.
     */
    method LogOut() returns (r: Result<(), Exc>)
      modifies this, conv
      ensures LogOutEffect(r)
    {
      user := None;
      r := conv.Send(Str(LoggedOutText));
      if r.Err? {
        return;
      }
      r := RunMainMenu();
    }

    /** `get_users(username)`: calls `User.get`, which the User class does not have. */
    method GetUsers(username: Option<string>) returns (r: Result<(), Exc>)
      ensures r == Err(AttributeError(NoGetText))
    {
      return Err(AttributeError(NoGetText));
    }

    /**
     * `run_main_menu()`: load and send the logged-out table without a user,
     * the administrator's for role "admin", the user's for role "user"; any
     * other role gets nothing.
     */
    method RunMainMenu() returns (r: Result<(), Exc>)
      modifies this, conv
      ensures user == old(user)
      ensures conv.incoming == old(conv.incoming) && conv.closed == old(conv.closed)
      ensures user.None? ==> userCommands == config.loggedOut && adminCommands == old(adminCommands)
      ensures user.Some? && user.value.role == Str("admin") ==> adminCommands == config.admin && userCommands == old(userCommands)
      ensures user.Some? && user.value.role == Str("user") ==> userCommands == config.user && adminCommands == old(adminCommands)
      ensures user.Some? && user.value.role !in {Str("admin"), Str("user")} ==>
        userCommands == old(userCommands) && adminCommands == old(adminCommands) && conv.trace == old(conv.trace) && r.Ok?
      ensures !conv.closed ==> r.Ok?
      ensures !conv.closed && user.None? ==>
        conv.trace == old(conv.trace) + [Sent(Reply(Str("Please log in or register"), Listing(config.loggedOut), "success"))]
      ensures !conv.closed && user.Some? && user.value.role == Str("admin") ==>
        conv.trace == old(conv.trace) + [Sent(Reply(Str("Admin Main Menu"), Listing(config.admin), "success"))]
      ensures !conv.closed && user.Some? && user.value.role == Str("user") ==>
        conv.trace == old(conv.trace) + [Sent(Reply(Str("User Main Menu"), Listing(config.user), "success"))]
      ensures conv.closed && (user.None? || user.value.role in {Str("admin"), Str("user")}) ==>
        r == Err(OSError) && conv.trace == old(conv.trace)
    {
      if user.None? {
        userCommands := config.loggedOut;
        r := conv.Send(Str("Please log in or register"), Listing(userCommands));
      } else if user.value.role == Str("admin") {
        adminCommands := config.admin;
        r := conv.Send(Str("Admin Main Menu"), Listing(adminCommands));
      } else if user.value.role == Str("user") {
        userCommands := config.user;
        r := conv.Send(Str("User Main Menu"), Listing(userCommands));
      } else {
        r := Ok(());
      }
    }

    /**
     * The `add` command of the user-management menu: ask for the four
     * fields, register with the role given, and say whether it worked.
     */
    method AddUser() returns (r: Result<(), Exc>)
      modifies conv, store
      ensures AddUserEffect(r)
    {
      var input := GetUserInput(conv, AddUserFields);
      if input.Err? {
        return Err(input.error);
      }
      var a := input.value;
      var ok := UserModel.Register(store, Answer(a, "username"), Answer(a, "password"), Answer(a, "email"), Answer(a, "user role"));
      if ok {
        r := conv.Send(Str("User " + Answer(a, "username") + " added successfully!"));
      } else {
        r := conv.Send(Str(FailedText), Null, "error");
      }
    }

    /**
     * The `delete` command: ask for the username, ask to confirm, and delete
     * only on "Y" (any case), reporting whether the account existed.
     */
    method DeleteUser() returns (r: Result<(), Exc>)
      modifies conv, store
      ensures DeleteUserEffect(r)
    {
      var input := GetUserInput(conv, ["username"]);
      if input.Err? {
        return Err(input.error);
      }
      var username := Answer(input.value, "username");
      AnswerIsReply(["username"], old(conv.incoming)[..1], 0);
      assert old(conv.incoming)[..1] == [old(conv.incoming)[0]];
      r := conv.Send(Str("Are you sure you want to delete user " + username + "? Y/N"));
      if r.Err? {
        return;
      }
      var clientReply := conv.Receive();
      if clientReply.Err? {
        return Err(clientReply.error);
      }
      if Upper(clientReply.value) == "Y" {
        var ok := DeleteAccount(store, username);
        if ok {
          r := conv.Send(Str("User " + username + " deleted successfully!"));
        } else {
          r := conv.Send(Str("User " + username + " does not exist!"), Null, "error");
        }
      }
    }

    /**
     * One command `cmd` of the user-management submenu, already case-folded
     * and found in its table. `add` and `delete` run their dialogues; `show`
     * asks for a username and then fails in `get_users`, as `show all` does
     * at once; `return` sends an empty line and `finished` ends the submenu;
     * `help` sends the submenu's table and then the administrator's, which it
     * loads; any other command does nothing. Whatever happens, the trace only
     * grows.
     */
    method RunManageUsersCommand(cmd: string) returns (r: Result<(), Exc>, finished: bool)
      modifies this, conv, store
      ensures user == old(user) && userCommands == old(userCommands)
      ensures conv.closed == old(conv.closed) && |conv.incoming| <= |old(conv.incoming)|
      ensures old(conv.trace) <= conv.trace
      ensures finished <==> cmd == "return"
      ensures cmd != "help" ==> adminCommands == old(adminCommands)
      ensures finished && r.Ok? ==> |conv.trace| > 0 && conv.trace[|conv.trace| - 1] == Sent(Reply(Str(""), Null, "success"))
      ensures cmd == "add" ==> AddUserEffect(r)
      ensures cmd == "delete" ==> DeleteUserEffect(r)
      ensures cmd == "show" ==>
        && store.records == old(store.records)
        && (old(conv.closed) ==> r == Err(OSError) && conv.trace == old(conv.trace) && conv.incoming == old(conv.incoming))
        && (!old(conv.closed) && old(conv.incoming) == [] ==>
              r == Err(conv.eofError) && conv.incoming == [] && conv.trace == old(conv.trace) + [Sent(Reply(Str("Enter username: "), Null, "success"))])
        && (!old(conv.closed) && old(conv.incoming) != [] ==>
              && r == Err(AttributeError(NoGetText)) && conv.incoming == old(conv.incoming)[1..]
              && conv.trace == old(conv.trace) + [Sent(Reply(Str("Enter username: "), Null, "success")), Got(old(conv.incoming)[0])])
      ensures cmd == "show all" ==> r == Err(AttributeError(NoGetText)) && InputKept() && conv.trace == old(conv.trace)
      ensures cmd == "return" ==> InputKept() && SentOne(Reply(Str(""), Null, "success"), r)
      ensures cmd == "help" ==>
        && InputKept()
        && (!conv.closed ==>
              && r.Ok? && adminCommands == config.admin
              && conv.trace == old(conv.trace) + [Sent(Reply(Str(MenuTitle(ManageUsersMenu)), Listing(old(adminCommands)), "success")),
                                                  Sent(Reply(Str("Admin Main Menu"), Listing(config.admin), "success"))])
        && (conv.closed ==> r == Err(OSError) && adminCommands == old(adminCommands) && conv.trace == old(conv.trace))
      ensures cmd !in {"add", "delete", "show", "show all", "return", "help"} ==>
        r == Ok(()) && InputKept() && conv.trace == old(conv.trace)
    {
      finished := false;
      if cmd == "add" {
        r := AddUser();
      } else if cmd == "delete" {
        r := DeleteUser();
      } else if cmd == "show" {
        r := conv.Send(Str("Enter username: "));
        if r.Ok? {
          var username := conv.Receive();
          if username.Err? {
            return Err(username.error), false;
          }
          r := GetUsers(Some(username.value));
        }
      } else if cmd == "show all" {
        r := GetUsers(None);
      } else if cmd == "return" {
        r := conv.Send(Str(""));
        finished := true;
      } else if cmd == "help" {
        r := conv.Send(Str(MenuTitle(ManageUsersMenu)), Listing(adminCommands));
        if r.Ok? {
          adminCommands := config.admin;
          r := conv.Send(Str("Admin Main Menu"), Listing(adminCommands));
        }
      } else {
        r := Ok(());
      }
    }

    /**
     * `run_manage_users_menu()`: until `return`, send the submenu's table,
     * read a command and run it (case-folded); an unknown one is answered
     * with an `error` envelope re-sending the submenu's table. After `return`
     * the administrator's table field still holds the submenu's.
     */
    method RunManageUsersMenu() returns (r: Result<(), Exc>)
      modifies this, conv, store
      ensures user == old(user) && userCommands == old(userCommands)
      ensures conv.closed == old(conv.closed) && |conv.incoming| <= |old(conv.incoming)|
      ensures r.Ok? ==> adminCommands == config.manageUsers
      ensures r.Ok? ==> |conv.trace| > 0 && conv.trace[|conv.trace| - 1] == Sent(Reply(Str(""), Null, "success"))
      ensures !old(conv.closed) ==>
        |conv.trace| > |old(conv.trace)|
        && conv.trace[|old(conv.trace)|] == Sent(Reply(Str(MenuTitle(ManageUsersMenu)), Listing(config.manageUsers), "success"))
    {
      ghost var first := true;
      while true
        invariant user == old(user) && userCommands == old(userCommands)
        invariant conv.closed == old(conv.closed) && |conv.incoming| <= |old(conv.incoming)|
        invariant first ==> conv.trace == old(conv.trace)
        invariant !first ==>
          |conv.trace| > |old(conv.trace)|
          && conv.trace[|old(conv.trace)|] == Sent(Reply(Str(MenuTitle(ManageUsersMenu)), Listing(config.manageUsers), "success"))
        decreases |conv.incoming|
      {
        ghost var before := |conv.incoming|;
        adminCommands := config.manageUsers;
        var sent := conv.Send(Str(MenuTitle(ManageUsersMenu)), Listing(adminCommands));
        if sent.Err? {
          return sent;
        }
        first := false;
        var command := conv.Receive();
        if command.Err? {
          return Err(command.error);
        }
        var cmd := Lower(command.value);
        if cmd in Keys(adminCommands) {
          var finished;
          r, finished := RunManageUsersCommand(cmd);
          if finished {
            return;
          }
        } else {
          r := conv.Send(Str(UnknownText), Listing(adminCommands), "error");
        }
        if r.Err? {
          return;
        }
        assert |conv.incoming| < before;
      }
    }

    /** `run_user_menu(command)`: see UserMenuEffect. */
    method RunUserMenu(command: string) returns (r: Result<(), Exc>)
      requires user.Some?
      modifies this, conv
      ensures UserMenuEffect(command, r)
    {
      var cmd := Lower(command);
      if cmd in Keys(userCommands) {
        if cmd == "inbox" {
          r := Ok(());
        } else if cmd == "info" {
          r := GetUsers(Some(user.value.username));
        } else if cmd == "help" {
          r := conv.Send(Str(HelpText), Listing(userCommands));
        } else if cmd == "sign out" {
          r := LogOut();
        } else {
          r := Ok(());
        }
      } else {
        r := conv.Send(Str(UnknownText), Listing(userCommands), "error");
      }
    }

    /** `run_admin_menu(command)`: see AdminMenuEffect; `close` closes the connection and exits. */
    method RunAdminMenu(command: string) returns (r: Result<(), Exc>)
      modifies this, conv, store
      ensures conv.closed == old(conv.closed) || (Lower(command) == "close" && r == Err(SystemExit))
      ensures AdminMenuEffect(command, r)
    {
      var cmd := Lower(command);
      if cmd in Keys(adminCommands) {
        if cmd == "info" {
          r := conv.Send(Str(FormatServerInfo(Version, BuildDate)));
        } else if cmd == "uptime" {
          r := conv.Send(Str("server uptime (hh:mm:ss): " + uptime));
        } else if cmd == "help" {
          r := conv.Send(Str(HelpText), Listing(adminCommands));
        } else if cmd == "close" {
          conv.Close();
          r := Err(SystemExit);
        } else if cmd == "users" {
          r := RunManageUsersMenu();
        } else if cmd == "sign out" {
          r := LogOut();
        } else {
          r := Ok(());
        }
      } else {
        r := conv.Send(Str(UnknownText), Listing(adminCommands), "error");
      }
    }

    /**
     * One turn of `run`'s loop for the client's line `clientMsg`. Logged out,
     * the logged-out table is loaded and the line is matched exactly as sent,
     * without case-folding: `log in` and `register` run, any other key of the
     * table does nothing, and anything else is answered with an `error`
     * envelope. Logged in, the line goes to the menu of the user's role; a
     * user of any other role gets nothing.
     */
    method Dispatch(clientMsg: string) returns (r: Result<(), Exc>)
      modifies this, conv, store
      ensures |conv.incoming| <= |old(conv.incoming)|
      ensures SignedOut(old(user)) && clientMsg !in Keys(config.loggedOut) ==>
        && user == old(user) && userCommands == config.loggedOut && adminCommands == old(adminCommands)
        && InputKept() && SentOne(UnknownReply(config.loggedOut), r)
      ensures SignedOut(old(user)) && clientMsg in Keys(config.loggedOut) && clientMsg == "log in" ==> LogInEffect(r)
      ensures SignedOut(old(user)) && clientMsg in Keys(config.loggedOut) && clientMsg == "register" ==>
        && user == old(user) && userCommands == config.loggedOut && adminCommands == old(adminCommands)
        && RegisterEffect(["username", "password", "email"], r)
      ensures SignedOut(old(user)) && clientMsg in Keys(config.loggedOut) && clientMsg !in {"log in", "register"} ==>
        && user == old(user) && userCommands == config.loggedOut && adminCommands == old(adminCommands)
        && InputKept() && r == Ok(()) && conv.trace == old(conv.trace)
      ensures !SignedOut(old(user)) && old(user).value.role == Str("user") ==> UserMenuEffect(clientMsg, r)
      ensures !SignedOut(old(user)) && old(user).value.role == Str("admin") ==> AdminMenuEffect(clientMsg, r)
      ensures !SignedOut(old(user)) && old(user).value.role !in {Str("user"), Str("admin")} ==>
        TablesKept() && InputKept() && r == Ok(()) && conv.trace == old(conv.trace)
    {
      if SignedOut(user) {
        userCommands := config.loggedOut;
        if clientMsg in Keys(userCommands) {
          if clientMsg == "log in" {
            r := LogIn();
          } else if clientMsg == "register" {
            r := Register(["username", "password", "email"]);
          } else {
            r := Ok(());
          }
        } else {
          r := conv.Send(Str(UnknownText), Listing(userCommands), "error");
        }
      } else if user.value.role == Str("user") {
        r := RunUserMenu(clientMsg);
      } else if user.value.role == Str("admin") {
        r := RunAdminMenu(clientMsg);
      } else {
        r := Ok(());
      }
    }

    /** The end of `start_server()`: load the logged-out table and greet the client with it. */
    method Start() returns (r: Result<(), Exc>)
      modifies this, conv
      ensures userCommands == config.loggedOut && user == old(user) && adminCommands == old(adminCommands)
      ensures conv.incoming == old(conv.incoming) && conv.closed == old(conv.closed)
      ensures !conv.closed ==> (r.Ok? &&
        conv.trace == old(conv.trace) + [Sent(Reply(Str("Successfully connected to: " + Host), Listing(config.loggedOut), "success"))])
      ensures conv.closed ==> r == Err(OSError) && conv.trace == old(conv.trace)
    {
      userCommands := config.loggedOut;
      r := conv.Send(Str("Successfully connected to: " + Host), Listing(userCommands));
    }

    /**
     * `run()`: greet the client, then read and dispatch its lines. Every
     * exception inside the loop, a lost connection or any other, ends in
     * `exit()`, so `run` ends with SystemExit once the client's lines run out;
     * only a failure of the greeting, outside the loop, escapes as itself.
     */
    method Run() returns (r: Exc)
      modifies this, conv, store
      ensures old(conv.closed) ==> r == OSError
      ensures !old(conv.closed) ==> r == SystemExit
    {
      var greeted := Start();
      if greeted.Err? {
        return greeted.error;
      }
      while true
        decreases |conv.incoming|
      {
        ghost var before := |conv.incoming|;
        var clientMsg := conv.Receive();
        if clientMsg.Err? {
          return SystemExit;
        }
        var outcome := Dispatch(clientMsg.value);
        if outcome.Err? {
          return SystemExit;
        }
        assert |conv.incoming| < before;
      }
    }
  }
}
