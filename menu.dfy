/**
 * menu.py: the command menu of a connection. Which commands are valid
 * depends on the menu the client is in — logged out, a user's, an
 * administrator's, or the administrator's user-management submenu — and
 * each valid command runs one handler.
 */
module Menu {
  import opened Values
  import opened Communication
  import opened Session
  import opened Utilities
  import opened UserDao
  import opened UserModel

  // ---------------------------------------------------------------------
  // Tables

  /** The handlers of menu.py. */
  datatype Handler =
    | Login | Registration | ClientExit | Inbox | UserInfo | Help | Logout
    | ServerInfo | Uptime | UsersManagement | ServerShutdown | UserDeletion | Return

  /** The menus a connection moves between. */
  datatype MenuState = LoggedOutMenu | UserMenu | AdminMenu | ManageUsersMenu

  /** `dict[k]` on a table of handlers. */
  function Find<V>(table: seq<(string, V)>, k: string): Option<V> {
    if table == [] then None
    else if table[0].0 == k then Some(table[0].1)
    else Find(table[1..], k)
  }

  /** A key is found exactly when some entry has it, and what is found is that entry's value. */
  lemma {:induction false} FindSpec<V>(table: seq<(string, V)>, k: string)
    ensures Find(table, k).Some? <==> exists i :: 0 <= i < |table| && table[i].0 == k
    ensures Find(table, k).Some? ==> exists i :: 0 <= i < |table| && table[i] == (k, Find(table, k).value)
  {
    if table != [] && table[0].0 != k {
      FindSpec(table[1..], k);
      assert forall i :: 0 < i < |table| ==> table[i] == table[1..][i - 1];
      if Find(table, k).Some? {
        var i :| 0 <= i < |table[1..]| && table[1..][i] == (k, Find(table, k).value);
        assert table[i + 1] == (k, Find(table, k).value);
      }
    } else if table != [] {
      assert table[0] == (k, Find(table, k).value);
    }
  }

  /** The handler tables, literally as menu.py builds them. */
  function HandlersFor(s: MenuState): seq<(string, Handler)> {
    match s
    case LoggedOutMenu => [("log in", Login), ("register", Registration), ("exit", ClientExit)]
    case UserMenu => [("inbox", Inbox), ("info", UserInfo), ("help", Help), ("log out", Logout), ("exit", ClientExit)]
    case AdminMenu =>
      [("inbox", Inbox), ("info", ServerInfo), ("uptime", Uptime), ("users", UsersManagement),
       ("help", Help), ("log out", Logout), ("exit", ServerShutdown)]
    case ManageUsersMenu =>
      [("add", Registration), ("delete", UserDeletion), ("user info", UserInfo), ("user info -a", UserInfo),
       ("help", Help), ("back", Return)]
  }

  /** `exit` ends the client's session in the logged-out and user menus, but shuts the server down in the administrator's. */
  lemma ExitHandlers()
    ensures Find(HandlersFor(LoggedOutMenu), "exit") == Some(ClientExit)
    ensures Find(HandlersFor(UserMenu), "exit") == Some(ClientExit)
    ensures Find(HandlersFor(AdminMenu), "exit") == Some(ServerShutdown)
    ensures Find(HandlersFor(ManageUsersMenu), "exit") == None
  {
  }

  /** Every command name in the tables is in lower case, so a case-folded command can match it. */
  lemma {:induction false} HandlerNamesFolded(s: MenuState, i: nat)
    requires i < |HandlersFor(s)|
    ensures Lower(HandlersFor(s)[i].0) == HandlersFor(s)[i].0
  {
    var name := HandlersFor(s)[i].0;
    LowerOfLowerCase(name);
  }

  /**
   * The command descriptions `load_menu_config` reads for each menu, the
   * dicts `current_commands` is set to. The file they come from is not part
   * of this model, so they are a parameter.
   */
  datatype MenuConfig = MenuConfig(
    loggedOut: seq<(string, Json)>,
    user: seq<(string, Json)>,
    admin: seq<(string, Json)>,
    manageUsers: seq<(string, Json)>)

  function TableFor(c: MenuConfig, s: MenuState): seq<(string, Json)> {
    match s
    case LoggedOutMenu => c.loggedOut
    case UserMenu => c.user
    case AdminMenu => c.admin
    case ManageUsersMenu => c.manageUsers
  }

  function MenuTitle(s: MenuState): string {
    match s
    case LoggedOutMenu => "Please log in or register"
    case UserMenu => "User Main Menu"
    case AdminMenu => "Administrator Main Menu"
    case ManageUsersMenu => "User management menu"
  }

  predicate IsAdmin(u: User) {
    u.role == Str("admin")
  }

  /** The main menu `update_menu_state` picks: logged out without a user, the administrator's for role "admin", the user's otherwise. */
  function StateFor(user: Option<User>): (s: MenuState)
    ensures user.None? <==> s == LoggedOutMenu
    ensures s == AdminMenu <==> user.Some? && IsAdmin(user.value)
    ensures s == UserMenu <==> user.Some? && !IsAdmin(user.value)
  {
    if user.None? then LoggedOutMenu
    else if IsAdmin(user.value) then AdminMenu
    else UserMenu
  }

  /**
   * `_get_command_handler(command)` as written (menu.py:83-90): the table is
   * chosen by the user and role alone, so inside the user-management submenu
   * the administrator's table is searched.
   */
  function HandlerAsWritten(user: Option<User>, command: string): Result<Handler, Exc> {
    match Find(HandlersFor(StateFor(user)), command)
    case Some(h) => Ok(h)
    case None => Err(KeyError(command))
  }

  /** `_get_command_handler(command)` as intended: the handler table of the menu the client is in. */
  function HandlerFor(s: MenuState, command: string): (r: Result<Handler, Exc>)
    ensures r.Ok? <==> exists i :: 0 <= i < |HandlersFor(s)| && HandlersFor(s)[i].0 == command
    ensures r.Ok? ==> exists i :: 0 <= i < |HandlersFor(s)| && HandlersFor(s)[i] == (command, r.value)
    ensures r.Err? ==> r.error == KeyError(command)
  {
    FindSpec(HandlersFor(s), command);
    match Find(HandlersFor(s), command)
    case Some(h) => Ok(h)
    case None => Err(KeyError(command))
  }

  /**
   * In the user-management submenu every command but `help` fails as
   * written: the lookup raises KeyError, which the dispatcher reports as a
   * generic error, so `back` never leads out of the submenu. The intended
   * lookup finds each of them.
   */
  lemma SubmenuCommandsLostAsWritten(admin: User, command: string)
    requires IsAdmin(admin)
    requires command in {"add", "delete", "user info", "user info -a", "back"}
    ensures HandlerAsWritten(Some(admin), command) == Err(KeyError(command))
    ensures HandlerFor(ManageUsersMenu, command).Ok?
  {
    var t := HandlersFor(ManageUsersMenu);
    var a := HandlersFor(AdminMenu);
    FindSpec(a, command);
    assert forall i :: 0 <= i < |a| ==> a[i].0 in {"inbox", "info", "uptime", "users", "help", "log out", "exit"};
    if command == "add" { assert t[0].0 == command; }
    else if command == "delete" { assert t[1].0 == command; }
    else if command == "user info" { assert t[2].0 == command; }
    else if command == "user info -a" { assert t[3].0 == command; }
    else { assert t[5].0 == command; }
  }

  /** Outside the submenu the written lookup and the intended one agree. */
  lemma HandlerAsWrittenAgreesInMainMenus(user: Option<User>, command: string)
    ensures HandlerAsWritten(user, command) == HandlerFor(StateFor(user), command)
  {
  }

  /** The fields registration asks for: three when logged out, four (with the role) for an administrator. */
  function RegistrationFields(user: Option<User>): (r: Result<seq<string>, Exc>)
    ensures user.None? ==> r == Ok(["username", "password", "email"])
    ensures user.Some? && IsAdmin(user.value) ==> r == Ok(["username", "password", "email", "user role"])
    ensures user.Some? && !IsAdmin(user.value) ==> r == Err(UnboundLocalError("required_fields"))
  {
    if user.None? then Ok(["username", "password", "email"])
    else if IsAdmin(user.value) then Ok(["username", "password", "email", "user role"])
    else Err(UnboundLocalError("required_fields"))
  }

  /** The text of a reply to a form field; every field asked for is a key of the answers. */
  function Answer(answers: seq<(string, Json)>, field: string): string {
    match Lookup(answers, field)
    case Some(Str(s)) => s
    case _ => ""
  }

  /** Reading a field back from `get_user_input`'s dict gives the reply to its prompt. */
  lemma AnswerIsReply(fields: seq<string>, replies: seq<string>, i: nat)
    requires |replies| == |fields| && i < |fields|
    requires forall j :: i < j < |fields| ==> fields[j] != fields[i]
    ensures Answer(Answers(fields, replies), fields[i]) == replies[i]
  {
    AnswersLastReplyWins(fields, replies, i);
  }

  // ---------------------------------------------------------------------
  // The server, as the menu uses it

  const LoginFields: seq<string> := ["username", "password"]
  const LoggedInText: string := "Logged in successfully!"
  const BadLoginText: string := "Incorrect username or password!"
  const LoggedOutText: string := "You have been successfully logged out!"
  const SignedUpText: string := "Sign up successful!"
  const FailedText: string := "Operation failed!"
  const UnknownText: string := "Unknown request. Choose correct command!"
  const GenericErrorText: string := "An error occurred. Please try again."
  const GoodbyeText: string := "Goodbye!"
  const ExitRequestedText: string := "Client requested to exit"

  function LoginReply(res: Option<User>): Envelope {
    if res.Some? then Reply(Str(LoggedInText), Null, "success") else Reply(Str(BadLoginText), Null, "error")
  }

  /** The role a registration asks for, or the default when the form has no role field. */
  function RoleOf(fields: seq<string>, answers: seq<(string, Json)>): string {
    if "user role" in fields then Answer(answers, "user role") else "user"
  }

  /** What registration reports: success for a username not yet taken, failure otherwise. */
  function SignUpReply(ok: bool): Envelope {
    if ok then Reply(Str(SignedUpText), Null, "success") else Reply(Str(FailedText), Null, "error")
  }

  /**
   * The accounts after registering the answers `a` with role `role`: a
   * username not yet taken and not empty gains its record (the hashed
   * password, the email and the role); otherwise nothing changes.
   */
  function Registered(records: map<string, Json>, hash: string -> string, a: seq<(string, Json)>, role: string): map<string, Json> {
    var username := Answer(a, "username");
    if username !in records && username != "" then
      records[username := Projection(RegisterData(username, hash(Answer(a, "password")), Answer(a, "email"), role))]
    else records
  }

  /** What `User.log_in` makes of the replies to the login form. */
  function Attempt(records: map<string, Json>, hash: string -> string, replies: seq<string>): Result<Option<User>, Exc>
    requires |replies| == |LoginFields|
  {
    var a := Answers(LoginFields, replies);
    LogIn(records, hash, Answer(a, "username"), Answer(a, "password"))
  }

  /** What account deletion reports: that the user was deleted, or that there was no such user. */
  function DeletionReply(username: string, existed: bool): Envelope {
    if existed then Reply(Str("User " + username + " deleted successfully!"), Null, "success")
    else Reply(Str("User " + username + " does not exist!"), Null, "error")
  }

  /** The account data a user-data request sends, with the hint to render it as a table. */
  function Tabular(record: Option<Json>): Json {
    Arr([if record.Some? then record.value else Null, Str("tabular")])
  }

  /**
   * The server a menu drives: the logged-in user, the connection and the
   * account store. Its version, build date and uptime text are what the
   * info and uptime commands report.
   */
  class Endpoint {
    var user: Option<User>
    const conv: Conversation
    const store: UserStore
    const version: string
    const buildDate: string
    const uptime: string

    constructor (conv: Conversation, store: UserStore, version: string, buildDate: string, uptime: string)
      ensures user == None && this.conv == conv && this.store == store
      ensures this.version == version && this.buildDate == buildDate && this.uptime == uptime
    {
      user := None;
      this.conv := conv;
      this.store := store;
      this.version := version;
      this.buildDate := buildDate;
      this.uptime := uptime;
    }

    /**
     * One login attempt: ask for the username and the password, set `user`
     * to what `User.log_in` returns (None on a failed attempt), and say which
     * it was.
     */
    method ProcessLogin() returns (r: Result<(), Exc>)
      modifies this, conv
      ensures conv.closed == old(conv.closed)
      ensures old(conv.closed) ==>
        r == Err(OSError) && user == old(user) && conv.trace == old(conv.trace) && conv.incoming == old(conv.incoming)
      ensures !old(conv.closed) && |old(conv.incoming)| < 2 ==>
        && r == Err(conv.eofError) && user == old(user) && conv.incoming == []
        && conv.trace == old(conv.trace) + Abandoned(LoginFields, old(conv.incoming))
      ensures !old(conv.closed) && |old(conv.incoming)| >= 2 ==>
        var replies := old(conv.incoming)[..2];
        var res := Attempt(store.records, store.hash, replies);
        && conv.incoming == old(conv.incoming)[2..]
        && (res.Err? ==> r == Err(res.error) && user == old(user) && conv.trace == old(conv.trace) + Exchange(LoginFields, replies))
        && (res.Ok? ==>
              r.Ok? && user == res.value && conv.trace == old(conv.trace) + Exchange(LoginFields, replies) + [Sent(LoginReply(res.value))])
    {
      var input := GetUserInput(conv, LoginFields);
      if input.Err? {
        return Err(input.error);
      }
      var res := LogIn(store.records, store.hash, Answer(input.value, "username"), Answer(input.value, "password"));
      if res.Err? {
        return Err(res.error);
      }
      user := res.value;
      if res.value.Some? {
        r := conv.Send(Str(LoggedInText));
      } else {
        r := conv.Send(Str(BadLoginText), Null, "error");
      }
    }

    /** Ask for the form's fields and register the account; report whether it worked. */
    method ProcessRegistration(fields: seq<string>) returns (r: Result<(), Exc>)
      modifies conv, store
      ensures conv.closed == old(conv.closed)
      ensures old(conv.closed) && fields != [] ==>
        && r == Err(OSError) && conv.trace == old(conv.trace) && conv.incoming == old(conv.incoming)
        && store.records == old(store.records)
      ensures !old(conv.closed) && |fields| > |old(conv.incoming)| ==>
        && r == Err(conv.eofError) && conv.incoming == [] && store.records == old(store.records)
        && conv.trace == old(conv.trace) + Abandoned(fields, old(conv.incoming))
      ensures (!old(conv.closed) || fields == []) && |fields| <= |old(conv.incoming)| ==>
        var replies := old(conv.incoming)[..|fields|];
        var a := Answers(fields, replies);
        && conv.incoming == old(conv.incoming)[|fields|..]
        && store.records == Registered(old(store.records), store.hash, a, RoleOf(fields, a))
        && (!old(conv.closed) ==>
              r.Ok? && conv.trace == old(conv.trace) + Exchange(fields, replies) + [Sent(SignUpReply(Answer(a, "username") !in old(store.records)))])
        && (old(conv.closed) ==> r == Err(OSError) && conv.trace == old(conv.trace))
    {
      var input := GetUserInput(conv, fields);
      if input.Err? {
        return Err(input.error);
      }
      var a := input.value;
      var ok := Register(store, Answer(a, "username"), Answer(a, "password"), Answer(a, "email"), RoleOf(fields, a));
      if ok {
        r := conv.Send(Str(SignedUpText));
      } else {
        r := conv.Send(Str(FailedText), Null, "error");
      }
    }

    /** Forget the user and say so. */
    method ProcessLogout() returns (r: Result<(), Exc>)
      modifies this, conv
      ensures user == None
      ensures conv.incoming == old(conv.incoming) && conv.closed == old(conv.closed)
      ensures !conv.closed ==> r.Ok? && conv.trace == old(conv.trace) + [Sent(Reply(Str(LoggedOutText), Null, "success"))]
      ensures conv.closed ==> r == Err(OSError) && conv.trace == old(conv.trace)
    {
      user := None;
      r := conv.Send(Str(LoggedOutText));
    }

    /** Send the stored account data of `username` (None when there is none) for display as a table. */
    method GetUserData(username: string) returns (r: Result<(), Exc>)
      modifies conv
      ensures conv.incoming == old(conv.incoming) && conv.closed == old(conv.closed)
      ensures !conv.closed ==> r.Ok? && conv.trace == old(conv.trace) + [Sent(Reply(Str(""), Tabular(store.GetUser(username)), "success"))]
      ensures conv.closed ==> r == Err(OSError) && conv.trace == old(conv.trace)
    {
      r := conv.Send(Str(""), Tabular(store.GetUser(username)));
    }

    /** Delete the account and report whether it existed. */
    method ProcessAccountDeletion(username: string) returns (r: Result<(), Exc>)
      modifies conv, store
      ensures store.records == old(store.records) - {username}
      ensures conv.incoming == old(conv.incoming) && conv.closed == old(conv.closed)
      ensures !conv.closed ==> r.Ok? && conv.trace == old(conv.trace) + [Sent(DeletionReply(username, username in old(store.records)))]
      ensures conv.closed ==> r == Err(OSError) && conv.trace == old(conv.trace)
    {
      var ok := DeleteAccount(store, username);
      if ok {
        r := conv.Send(Str("User " + username + " deleted successfully!"));
      } else {
        r := conv.Send(Str("User " + username + " does not exist!"), Null, "error");
      }
    }
  }

  // ---------------------------------------------------------------------
  // The menu

  function UnknownReply(table: seq<(string, Json)>): Envelope {
    Reply(Str(UnknownText), Listing(table), "error")
  }

  function GenericErrorReply(): Envelope {
    Reply(Str(GenericErrorText), Null, "error")
  }

  /** The envelope that shows menu `s`: its title, and its table to be rendered as a list. */
  function MenuReply(c: MenuConfig, s: MenuState): Envelope {
    Reply(Str(MenuTitle(s)), Listing(TableFor(c, s)), "success")
  }

  class Menu {
    const server: Endpoint
    const config: MenuConfig
    /** The descriptions of the commands valid now. */
    var currentCommands: seq<(string, Json)>
    /** The menu the client is in; set together with `currentCommands`. */
    var state: MenuState

    constructor (server: Endpoint, config: MenuConfig)
      ensures this.server == server && this.config == config
      ensures currentCommands == [] && state == LoggedOutMenu
    {
      this.server := server;
      this.config := config;
      currentCommands := [];
      state := LoggedOutMenu;
    }

    /** `_is_valid_command(command)`: the command is a key of the current table. */
    predicate IsValidCommand(command: string)
      reads this
    {
      command in Keys(currentCommands)
    }

    // -------------------------------------------------------------------
    // What each handler does. In these predicates `old` is the state before
    // the handler runs, `r` is what it returns or raises, and `t` is the
    // conversation's trace when it is done.

    /** The menu, its table and the server's user are as they were. */
    twostate predicate MenuKept()
      reads this, server
    {
      state == old(state) && currentCommands == old(currentCommands) && server.user == old(server.user)
    }

    /** The client's pending replies, whether the connection is closed, and the accounts are as they were. */
    twostate predicate InputKept()
      reads server.conv, server.store
    {
      && server.conv.incoming == old(server.conv.incoming) && server.conv.closed == old(server.conv.closed)
      && server.store.records == old(server.store.records)
    }

    /** Sending `events` gave `r` and left `t`: on an open connection they follow what was sent before; a closed one raises OSError and records nothing. */
    twostate predicate SentAll(events: seq<Event>, new r: Result<(), Exc>, new t: seq<Event>)
      reads server.conv
    {
      && (!server.conv.closed ==> r.Ok? && t == old(server.conv.trace) + events)
      && (server.conv.closed ==> r == Err(OSError) && t == old(server.conv.trace))
    }

    /** `_handle_login`: one login attempt, then the main menu that fits whoever is logged in. */
    twostate predicate LoginEffect(new r: Result<(), Exc>, new t: seq<Event>)
      reads this, server, server.conv, server.store
    {
      && server.store.records == old(server.store.records) && server.conv.closed == old(server.conv.closed)
      && (old(server.conv.closed) ==>
            r == Err(OSError) && MenuKept() && t == old(server.conv.trace) && server.conv.incoming == old(server.conv.incoming))
      && (!old(server.conv.closed) && |old(server.conv.incoming)| < 2 ==>
            && r == Err(server.conv.eofError) && MenuKept() && server.conv.incoming == []
            && t == old(server.conv.trace) + Abandoned(LoginFields, old(server.conv.incoming)))
      && (!old(server.conv.closed) && |old(server.conv.incoming)| >= 2 ==>
        var replies := old(server.conv.incoming)[..2];
        var res := Attempt(server.store.records, server.store.hash, replies);
        && server.conv.incoming == old(server.conv.incoming)[2..]
        && (res.Err? ==> r == Err(res.error) && MenuKept() && t == old(server.conv.trace) + Exchange(LoginFields, replies))
        && (res.Ok? ==>
              && r.Ok? && server.user == res.value
              && state == StateFor(server.user) && currentCommands == TableFor(config, state)
              && t == old(server.conv.trace) + Exchange(LoginFields, replies)
                   + [Sent(LoginReply(res.value)), Sent(MenuReply(config, state)), Sent(ReadyEnvelope)]))
    }

    /**
     * `_handle_registration`: the form that fits the user, the registration
     * and its report, then the main menu again. Until the report is sent,
     * nothing but the conversation changes.
     */
    twostate predicate RegistrationEffect(new r: Result<(), Exc>, new t: seq<Event>)
      reads this, server, server.conv, server.store
    {
      var fields := RegistrationFields(old(server.user));
      && server.user == old(server.user) && server.conv.closed == old(server.conv.closed)
      && (fields.Err? ==>
            && r == Err(fields.error) && MenuKept() && server.store.records == old(server.store.records)
            && t == old(server.conv.trace) && server.conv.incoming == old(server.conv.incoming))
      && (fields.Ok? && old(server.conv.closed) ==>
            && r == Err(OSError) && MenuKept() && server.store.records == old(server.store.records)
            && t == old(server.conv.trace) && server.conv.incoming == old(server.conv.incoming))
      && (fields.Ok? && !old(server.conv.closed) && |fields.value| > |old(server.conv.incoming)| ==>
            && r == Err(server.conv.eofError) && MenuKept() && server.store.records == old(server.store.records)
            && t == old(server.conv.trace) + Abandoned(fields.value, old(server.conv.incoming)) && server.conv.incoming == [])
      && (fields.Ok? && !old(server.conv.closed) && |fields.value| <= |old(server.conv.incoming)| ==>
        var replies := old(server.conv.incoming)[..|fields.value|];
        var a := Answers(fields.value, replies);
        && r.Ok?
        && server.store.records == Registered(old(server.store.records), server.store.hash, a, RoleOf(fields.value, a))
        && state == StateFor(server.user) && currentCommands == TableFor(config, state)
        && server.conv.incoming == old(server.conv.incoming)[|fields.value|..]
        && t == old(server.conv.trace) + Exchange(fields.value, replies)
             + [Sent(SignUpReply(Answer(a, "username") !in old(server.store.records))),
                Sent(MenuReply(config, state)), Sent(ReadyEnvelope)])
    }

    /** `_handle_client_exit`: Goodbye, the connection closed, and ConnectionAbortedError. */
    twostate predicate ClientExitEffect(new r: Result<(), Exc>, new t: seq<Event>)
      reads this, server, server.conv, server.store
    {
      && MenuKept() && server.store.records == old(server.store.records)
      && server.conv.incoming == old(server.conv.incoming) && server.conv.closed
      && (!old(server.conv.closed) ==>
            r == Err(ConnectionAbortedError(ExitRequestedText)) && t == old(server.conv.trace) + [Sent(Reply(Str(GoodbyeText), Null, "success"))])
      && (old(server.conv.closed) ==> r == Err(OSError) && t == old(server.conv.trace))
    }

    /** `_handle_inbox`: nothing at all. */
    twostate predicate InboxEffect(new r: Result<(), Exc>, new t: seq<Event>)
      reads this, server, server.conv, server.store
    {
      r == Ok(()) && MenuKept() && InputKept() && t == old(server.conv.trace)
    }

    /**
     * `_handle_user_info`: AttributeError without a user; otherwise a user
     * whose role is "user" first gets their own record, then the username
     * asked for is looked up and its record sent.
     */
    twostate predicate UserInfoEffect(new r: Result<(), Exc>, new t: seq<Event>)
      reads this, server, server.conv, server.store
    {
      && MenuKept() && server.store.records == old(server.store.records) && server.conv.closed == old(server.conv.closed)
      && (server.user.None? ==> r == Err(AttributeError("role")) && t == old(server.conv.trace) && server.conv.incoming == old(server.conv.incoming))
      && (server.user.Some? && old(server.conv.closed) ==>
            r == Err(OSError) && t == old(server.conv.trace) && server.conv.incoming == old(server.conv.incoming))
      && (server.user.Some? && !old(server.conv.closed) ==>
        var own := if server.user.value.role == Str("user")
                   then [Sent(Reply(Str(""), Tabular(server.store.GetUser(server.user.value.username)), "success"))] else [];
        var asked := old(server.conv.trace) + own + [Sent(Reply(Str("Enter username: "), Null, "success"))];
        && (old(server.conv.incoming) == [] ==> r == Err(server.conv.eofError) && server.conv.incoming == [] && t == asked)
        && (old(server.conv.incoming) != [] ==>
              && r.Ok? && server.conv.incoming == old(server.conv.incoming)[1..]
              && t == asked + [Got(old(server.conv.incoming)[0]),
                               Sent(Reply(Str(""), Tabular(server.store.GetUser(old(server.conv.incoming)[0])), "success"))]))
    }

    /** `_handle_help`: the current table sent again. */
    twostate predicate HelpEffect(new r: Result<(), Exc>, new t: seq<Event>)
      reads this, server, server.conv, server.store
    {
      MenuKept() && InputKept() && SentAll([Sent(Reply(Str("Available Commands"), Listing(currentCommands), "success"))], r, t)
    }

    /** `_handle_logout`: the user forgotten, the logged-out text, then the logged-out menu. */
    twostate predicate LogoutEffect(new r: Result<(), Exc>, new t: seq<Event>)
      reads this, server, server.conv, server.store
    {
      && server.user == None && InputKept()
      && (!server.conv.closed ==> state == LoggedOutMenu && currentCommands == config.loggedOut)
      && (server.conv.closed ==> state == old(state) && currentCommands == old(currentCommands))
      && SentAll([Sent(Reply(Str(LoggedOutText), Null, "success")), Sent(MenuReply(config, LoggedOutMenu)), Sent(ReadyEnvelope)], r, t)
    }

    /** `_handle_server_info`: the version and build date. */
    twostate predicate ServerInfoEffect(new r: Result<(), Exc>, new t: seq<Event>)
      reads this, server, server.conv, server.store
    {
      MenuKept() && InputKept() && SentAll([Sent(Reply(Str(FormatServerInfo(server.version, server.buildDate)), Null, "success"))], r, t)
    }

    /** `_handle_uptime_display`: the uptime text. */
    twostate predicate UptimeEffect(new r: Result<(), Exc>, new t: seq<Event>)
      reads this, server, server.conv, server.store
    {
      MenuKept() && InputKept() && SentAll([Sent(Reply(Str(server.uptime), Null, "success"))], r, t)
    }

    /** `_handle_users_management`: the submenu's table becomes current and is sent, without a prompt. */
    twostate predicate UsersManagementEffect(new r: Result<(), Exc>, new t: seq<Event>)
      reads this, server, server.conv, server.store
    {
      && server.user == old(server.user) && InputKept()
      && state == ManageUsersMenu && currentCommands == config.manageUsers
      && SentAll([Sent(MenuReply(config, ManageUsersMenu))], r, t)
    }

    /** `_handle_server_shutdown`: the connection closed, and SystemExit. */
    twostate predicate ServerShutdownEffect(new r: Result<(), Exc>, new t: seq<Event>)
      reads this, server, server.conv, server.store
    {
      && r == Err(SystemExit) && MenuKept() && server.store.records == old(server.store.records)
      && server.conv.incoming == old(server.conv.incoming) && server.conv.closed && t == old(server.conv.trace)
    }

    /** `_handle_user_deletion`: ask for a username, delete that account, and say whether it existed. */
    twostate predicate UserDeletionEffect(new r: Result<(), Exc>, new t: seq<Event>)
      reads this, server, server.conv, server.store
    {
      && MenuKept() && server.conv.closed == old(server.conv.closed)
      && (old(server.conv.closed) ==>
            && r == Err(OSError) && server.store.records == old(server.store.records)
            && t == old(server.conv.trace) && server.conv.incoming == old(server.conv.incoming))
      && (!old(server.conv.closed) && old(server.conv.incoming) == [] ==>
            && r == Err(server.conv.eofError) && server.store.records == old(server.store.records)
            && t == old(server.conv.trace) + Abandoned(["username"], []) && server.conv.incoming == [])
      && (!old(server.conv.closed) && old(server.conv.incoming) != [] ==>
        var name := old(server.conv.incoming)[0];
        && r.Ok?
        && server.store.records == old(server.store.records) - {name}
        && server.conv.incoming == old(server.conv.incoming)[1..]
        && t == old(server.conv.trace) + Exchange(["username"], [name]) + [Sent(DeletionReply(name, name in old(server.store.records)))])
    }

    /** `_handle_return`: back to the administrator's menu, with the prompt. */
    twostate predicate ReturnEffect(new r: Result<(), Exc>, new t: seq<Event>)
      reads this, server, server.conv, server.store
    {
      && server.user == old(server.user) && InputKept()
      && state == AdminMenu && currentCommands == config.admin
      && SentAll([Sent(MenuReply(config, AdminMenu)), Sent(ReadyEnvelope)], r, t)
    }

    /** What handler `h` does. */
    twostate predicate Effect(h: Handler, new r: Result<(), Exc>, new t: seq<Event>)
      reads this, server, server.conv, server.store
    {
      match h
      case Login => LoginEffect(r, t)
      case Registration => RegistrationEffect(r, t)
      case ClientExit => ClientExitEffect(r, t)
      case Inbox => InboxEffect(r, t)
      case UserInfo => UserInfoEffect(r, t)
      case Help => HelpEffect(r, t)
      case Logout => LogoutEffect(r, t)
      case ServerInfo => ServerInfoEffect(r, t)
      case Uptime => UptimeEffect(r, t)
      case UsersManagement => UsersManagementEffect(r, t)
      case ServerShutdown => ServerShutdownEffect(r, t)
      case UserDeletion => UserDeletionEffect(r, t)
      case Return => ReturnEffect(r, t)
    }

    // -------------------------------------------------------------------
    // Menu states

    /**
     * `_set_logged_out_state`, `_set_admin_state`, `_set_user_state`: make `s`
     * the current menu and send its table, followed by the input prompt.
     */
    method SetState(s: MenuState) returns (r: Result<(), Exc>)
      requires s != ManageUsersMenu
      modifies this, server.conv
      ensures state == s && currentCommands == TableFor(config, s)
      ensures server.conv.incoming == old(server.conv.incoming) && server.conv.closed == old(server.conv.closed)
      ensures SentAll([Sent(MenuReply(config, s)), Sent(ReadyEnvelope)], r, server.conv.trace)
    {
      state := s;
      currentCommands := TableFor(config, s);
      r := server.conv.SendPrompted(Str(MenuTitle(s)), Listing(currentCommands));
    }

    /** `update_menu_state()`: enter the main menu that fits the server's user. */
    method UpdateMenuState() returns (r: Result<(), Exc>)
      modifies this, server.conv
      ensures state == StateFor(server.user) && currentCommands == TableFor(config, state)
      ensures server.conv.incoming == old(server.conv.incoming) && server.conv.closed == old(server.conv.closed)
      ensures SentAll([Sent(MenuReply(config, state)), Sent(ReadyEnvelope)], r, server.conv.trace)
    {
      r := SetState(StateFor(server.user));
    }

    // -------------------------------------------------------------------
    // Handlers

    /** `_handle_login()` */
    method HandleLogin() returns (r: Result<(), Exc>)
      modifies this, server, server.conv
      ensures LoginEffect(r, server.conv.trace)
    {
      r := server.ProcessLogin();
      if r.Ok? {
        r := UpdateMenuState();
      }
    }

    /** `_handle_registration()`: the form fits the user (see RegistrationFields); register, then re-enter the main menu. */
    method HandleRegistration() returns (r: Result<(), Exc>)
      modifies this, server.conv, server.store
      ensures RegistrationEffect(r, server.conv.trace)
    {
      var fields := RegistrationFields(server.user);
      if fields.Err? {
        return Err(fields.error);
      }
      r := server.ProcessRegistration(fields.value);
      if r.Err? {
        return;
      }
      r := UpdateMenuState();
    }

    /** `_handle_logout()` */
    method HandleLogout() returns (r: Result<(), Exc>)
      modifies this, server, server.conv
      ensures LogoutEffect(r, server.conv.trace)
    {
      r := server.ProcessLogout();
      if r.Ok? {
        r := UpdateMenuState();
      }
    }

    /** `_handle_user_info()`: a user first gets their own data; then any username asked for is looked up. */
    method HandleUserInfo() returns (r: Result<(), Exc>)
      modifies server.conv
      ensures UserInfoEffect(r, server.conv.trace)
    {
      if server.user.None? {
        return Err(AttributeError("role"));
      }
      if server.user.value.role == Str("user") {
        r := server.GetUserData(server.user.value.username);
        if r.Err? {
          return;
        }
      }
      r := server.conv.Send(Str("Enter username: "));
      if r.Err? {
        return;
      }
      var username := server.conv.Receive();
      if username.Err? {
        return Err(username.error);
      }
      r := server.GetUserData(username.value);
    }

    /** `_handle_client_exit()`: say goodbye, close the connection, and raise ConnectionAbortedError. */
    method HandleClientExit() returns (r: Result<(), Exc>)
      modifies server.conv
      ensures ClientExitEffect(r, server.conv.trace)
    {
      var sent := server.conv.Send(Str(GoodbyeText));
      if sent.Err? {
        return Err(sent.error);
      }
      server.conv.Close();
      return Err(ConnectionAbortedError(ExitRequestedText));
    }

    /** `_handle_inbox()`: a placeholder that does nothing. */
    method HandleInbox() returns (r: Result<(), Exc>)
      ensures InboxEffect(r, server.conv.trace)
    {
      return Ok(());
    }

    /** `_handle_server_info()` */
    method HandleServerInfo() returns (r: Result<(), Exc>)
      modifies server.conv
      ensures ServerInfoEffect(r, server.conv.trace)
    {
      r := server.conv.Send(Str(FormatServerInfo(server.version, server.buildDate)));
    }

    /** `_handle_uptime_display()` */
    method HandleUptimeDisplay() returns (r: Result<(), Exc>)
      modifies server.conv
      ensures UptimeEffect(r, server.conv.trace)
    {
      r := server.conv.Send(Str(server.uptime));
    }

    /** `_handle_users_management()`: the submenu's table becomes current and is sent, without a prompt. */
    method HandleUsersManagement() returns (r: Result<(), Exc>)
      modifies this, server.conv
      ensures UsersManagementEffect(r, server.conv.trace)
    {
      state := ManageUsersMenu;
      currentCommands := config.manageUsers;
      r := server.conv.Send(Str(MenuTitle(ManageUsersMenu)), Listing(currentCommands));
    }

    /** `_handle_user_deletion()` */
    method HandleUserDeletion() returns (r: Result<(), Exc>)
      modifies server.conv, server.store
      ensures UserDeletionEffect(r, server.conv.trace)
    {
      var input := GetUserInput(server.conv, ["username"]);
      if input.Err? {
        return Err(input.error);
      }
      AnswerIsReply(["username"], old(server.conv.incoming)[..1], 0);
      assert old(server.conv.incoming)[..1] == [old(server.conv.incoming)[0]];
      r := server.ProcessAccountDeletion(Answer(input.value, "username"));
    }

    /** `_handle_return()` */
    method HandleReturn() returns (r: Result<(), Exc>)
      modifies this, server.conv
      ensures ReturnEffect(r, server.conv.trace)
    {
      r := SetState(AdminMenu);
    }

    /** `_handle_server_shutdown()`: close the connection and `exit()`, which raises SystemExit. */
    method HandleServerShutdown() returns (r: Result<(), Exc>)
      modifies server.conv
      ensures ServerShutdownEffect(r, server.conv.trace)
    {
      server.conv.Close();
      return Err(SystemExit);
    }

    /** `_handle_help()`: re-send the current table. */
    method HandleHelp() returns (r: Result<(), Exc>)
      modifies server.conv
      ensures HelpEffect(r, server.conv.trace)
    {
      r := server.conv.Send(Str("Available Commands"), Listing(currentCommands));
    }

    /** `handler()`: run the handler a table binds, with the effect `Effect` gives it. */
    method Run(h: Handler) returns (r: Result<(), Exc>)
      modifies this, server, server.conv, server.store
      ensures Effect(h, r, server.conv.trace)
    {
      match h
      case Login => r := HandleLogin();
      case Registration => r := HandleRegistration();
      case ClientExit => r := HandleClientExit();
      case Inbox => r := HandleInbox();
      case UserInfo => r := HandleUserInfo();
      case Help => r := HandleHelp();
      case Logout => r := HandleLogout();
      case ServerInfo => r := HandleServerInfo();
      case Uptime => r := HandleUptimeDisplay();
      case UsersManagement => r := HandleUsersManagement();
      case ServerShutdown => r := HandleServerShutdown();
      case UserDeletion => r := HandleUserDeletion();
      case Return => r := HandleReturn();
    }

    /**
     * `handle_command(command)`: case-fold the command. An unknown one is
     * answered with an `error` envelope re-sending the current table, gives
     * False, and nothing else changes. A known one is looked up in the table
     * of the menu the client is in and its handler run: `outcome` is what the
     * lookup or the handler gave and `t` the trace the handler left. A handler
     * that returns gives True; an Exception, the lookup's KeyError included,
     * is answered with the generic `error` envelope and gives None;
     * SystemExit is not an Exception and escapes.
     */
    method HandleCommand(command: string) returns (r: Result<Option<bool>, Exc>, ghost outcome: Option<Result<(), Exc>>, ghost t: seq<Event>)
      modifies this, server, server.conv, server.store
      ensures !old(IsValidCommand(Lower(command))) ==>
        && outcome == None && MenuKept() && InputKept()
        && (!old(server.conv.closed) ==>
              r == Ok(Some(false)) && server.conv.trace == old(server.conv.trace) + [Sent(UnknownReply(old(currentCommands)))])
        && (old(server.conv.closed) ==> r == Err(OSError) && server.conv.trace == old(server.conv.trace))
      ensures old(IsValidCommand(Lower(command))) && HandlerFor(old(state), Lower(command)).Err? ==>
        && outcome == Some(Err(KeyError(Lower(command)))) && MenuKept() && InputKept()
        && (!old(server.conv.closed) ==> r == Ok(None) && server.conv.trace == old(server.conv.trace) + [Sent(GenericErrorReply())])
        && (old(server.conv.closed) ==> r == Err(OSError) && server.conv.trace == old(server.conv.trace))
      ensures old(IsValidCommand(Lower(command))) && HandlerFor(old(state), Lower(command)).Ok? ==>
        && outcome.Some? && Effect(HandlerFor(old(state), Lower(command)).value, outcome.value, t)
        && (outcome.value.Ok? ==> r == Ok(Some(true)) && server.conv.trace == t)
        && (outcome.value.Err? && !IsException(outcome.value.error) ==> r == Err(outcome.value.error) && server.conv.trace == t)
        && (outcome.value.Err? && IsException(outcome.value.error) && !server.conv.closed ==>
              r == Ok(None) && server.conv.trace == t + [Sent(GenericErrorReply())])
        && (outcome.value.Err? && IsException(outcome.value.error) && server.conv.closed ==>
              r == Err(OSError) && server.conv.trace == t)
    {
      var cmd := Lower(command);
      t := server.conv.trace;
      if !IsValidCommand(cmd) {
        outcome := None;
        var sent := server.conv.Send(Str(UnknownText), Listing(currentCommands), "error");
        if sent.Err? {
          return Err(sent.error), outcome, t;
        }
        return Ok(Some(false)), outcome, t;
      }
      var result: Result<(), Exc>;
      var handler := HandlerFor(state, cmd);
      if handler.Err? {
        result := Err(handler.error);
      } else {
        result := Run(handler.value);
      }
      outcome := Some(result);
      t := server.conv.trace;
      if result.Ok? {
        return Ok(Some(true)), outcome, t;
      }
      if !IsException(result.error) {
        return Err(result.error), outcome, t;
      }
      var sent := server.conv.Send(Str(GenericErrorText), Null, "error");
      if sent.Err? {
        return Err(sent.error), outcome, t;
      }
      return Ok(None), outcome, t;
    }
  }
}
