# Client-Server-App in Dafny

A model of the console client/server application: the wire protocol both ends
share (a 4-byte big-endian length header followed by a JSON envelope
`{status, message, data}`), the server's command menus and login, registration
and user-management dialogues, the client's prompt flag and line editor, and the
account and inbox bookkeeping behind them.

One module per source file, plus `Values` for the Python values they share:

| file | module | models |
|---|---|---|
| values.dfy | `Values` | exceptions, JSON values, dicts as insertion-ordered pair lists, truthiness, `strip`, `lower`/`upper`, `isprintable` |
| communication.dfy | `Communication` | `CommunicationProtocol`: envelope, framing, `send`, `receive` over a `Channel` (a socket as a byte stream) |
| session.dfy | `Session` | `Conversation`: one connection at envelope level, as the server's command code sees it |
| utilities.dfy | `Utilities` | `get_user_input`, `format_server_info` |
| user_dao.dfy | `UserDao` | `UserDAO` over a record map |
| user_model.dfy | `UserModel` | `User`: `log_in`, `register`, `delete_account`, `send_message` |
| message_dao.dfy | `MessageDao` | `MessageDAO`: `create_inbox`, `save_message`, `delete_message`, `get_all` |
| user.dfy | `LegacyUser` | the earlier `User` with plain-text passwords |
| menu.dfy | `Menu` | `Menu`: command tables, menu state, `handle_command` and its handlers |
| server.dfy | `Server` | `Server`: its own `receive`, the login loop, the main, user, admin and user-management menus, `run` |
| client.dfy | `Client` | `Client`: `send`, `handle_response`, `display_prompt`, the key and line input of `run` |

The byte level is `Communication`: `CommunicationProtocol.Receive` is proved
to return exactly `ReadFrame` of the stream, and `FrameRoundTrip` proves that a
frame `Send` writes is read back as the message sent. That round trip is what
lets the command logic (`Menu`, `Server`, `Utilities`) work on
`Session.Conversation`, whose events are whole envelopes sent and client lines
received. A state-changing operation is a method of a class whose fields the
source mutates (`Menu.Menu.currentCommands`, `Server.Server.user`,
`Client.Client.awaitingInput`, `UserDao.UserStore.records`, ...); its `ensures`
gives the new state, in terms of specification functions (`Answers`,
`Exchange`, `ReadFrame`, `Save`, `Edited`, `HandlerFor`) whose properties are
lemmas.

`menu.py` calls a server that is not part of this model (`process_login`,
`process_registration`, `process_logout`, `get_user_data`,
`process_account_deletion`, `send(..., prompt=True)`). `Menu.Endpoint` gives
them the behaviour of their `server.py` counterparts: one login attempt, the
registration form with the role when one is asked for, the stored record sent
for display as a table, deletion reported as in `server.py`. A prompted send
is the envelope followed by a `ready_for_input` envelope with an empty
message, the signal `client.py` waits for. The command descriptions
`load_menu_config` reads from `menu_config.json` are the parameter
`Menu.MenuConfig`. The handler tables are the literal dicts of `menu.py`.

## Model

| member | source | states |
|---|---|---|
| Values.Subscript | user_model.py:18 | `d[k]`: the value when `d` is a dict with key `k`, KeyError(k) for a dict without it, TypeError for anything that is not a dict |
| Values.DictGet | user_dao.py:25-28 | `d.get(k)`: the value under `k`, and None exactly when `k` is not a key |
| Values.SetItem | user_model.py:52 | `d[k] = v`: succeeds exactly on a dict; afterwards `k` maps to `v`, the keys are the old ones plus `k`, every other key keeps its value |
| Values.StripEmptyIffBlank | message_dao.py:32 | `s.strip()` is empty exactly when `s` is all whitespace |
| Communication.ParseStatus | communication.py:22 | a status name is accepted exactly when it is success, error or ready_for_input, and it names the status it gives |
| Communication.ParseStatusName | communication.py:22-23 | every status is accepted back from its own name |
| Communication.FormatMessage | communication.py:11-28 | ValueError with the fixed text exactly when the status is outside the three; otherwise the envelope has that status and message, the data given, or the empty tuple when data is None |
| Communication.ToJson | communication.py:24-28 | the envelope is a dict with exactly the keys status, message and data, each once |
| Communication.FromToJson | communication.py:24-28 | reading status, message and data back out of the dict gives the envelope |
| Communication.Channel.Recv | communication.py:79 | `recv(n)` returns at most `n` bytes, a prefix of what the peer has sent and not yet been read, and an empty chunk only once the peer has closed |
| Communication.Channel.SendAll | communication.py:45 | `sendall` appends exactly the bytes given to the stream; once the peer has dropped the connection it writes nothing and raises ConnectionResetError |
| Communication.Be4RoundTrip | communication.py:73 | `int.from_bytes` undoes the 4-byte big-endian `to_bytes` for every length below 2^32 |
| Communication.Frame | communication.py:44-45 | a frame is 4 + n bytes, the body follows the header, and the header reads back as n |
| Communication.Enveloped | communication.py:40-41 | a dict is sent as it is; anything else is wrapped in a success envelope first |
| Communication.Outgoing | communication.py:40-45 | the bytes `send` writes: OverflowError exactly when the encoded body needs more than 4 header bytes, otherwise the header and the encoded body |
| Communication.CommunicationProtocol.constructor | communication.py:6-8 | the protocol keeps the socket and the buffer size it is given |
| Communication.CommunicationProtocol.Send | communication.py:30-51 | succeeds exactly when the frame can be built and the peer is still there, and then the outbound stream grows by exactly that frame; a body too long for the header raises OverflowError, and a dropped peer raises the ConnectionError of `sendall` again, both with nothing written; nothing is read |
| Communication.CommunicationProtocol.Receive | communication.py:53-86 | however the network splits the stream into chunks, the result and the bytes left unread are those of `ReadFrame` (see Findings) |
| Communication.FrameRoundTrip | communication.py:30-83 | a frame written by `send` followed by anything is read back as the message sent, and exactly the rest is left |
| Communication.AsWrittenAgreesWhenHeaderWhole | communication.py:69-83 | when the header arrives in one read and the written loop finishes, the written `receive` and `ReadFrame` give the same result and leave the same bytes |
| Communication.ShortHeaderRefusesFrame | communication.py:70-73 | a frame whose header arrives one byte at a time is read correctly by `ReadFrame` but misread as written (Findings) |
| Communication.TruncatedBodyHangs | communication.py:78-81 | when the peer closes partway through a body, `ReadFrame` raises BrokenPipeError but the written loop never ends (Findings) |
| Session.Reply | server.py:44-58 | the envelope `send` puts on the wire: the formatted one, or, for a bad status, an error envelope carrying the exception text |
| Session.Conversation.Send | server.py:44-58 | an open connection records exactly that envelope; a closed one raises OSError and records nothing |
| Session.Conversation.SendPrompted | menu.py:61 | the envelope and then a ready_for_input envelope, so that the client shows its prompt |
| Session.Conversation.Receive | utilities.py:19 | the client's next line, consumed and recorded; the end-of-stream error once it has no more; OSError on a closed connection |
| Session.Conversation.Close | menu.py:137 | the connection is closed and nothing else changes |
| Utilities.ExchangeAlternates | utilities.py:16-20 | the dialogue is 2n events: the i-th prompt `Enter {field}: ` for the i-th field, then the i-th reply |
| Utilities.AnswersKeys | utilities.py:16-20 | the dict built has exactly the fields asked for as keys |
| Utilities.AnswersUniqueKeys | utilities.py:16-20 | its keys are distinct |
| Utilities.AnswersLastReplyWins | utilities.py:17-19 | a field maps to the reply to its last prompt |
| Utilities.GetUserInput | utilities.py:14-20 | with enough replies, the dict of `Answers`, the dialogue of `Exchange` and the replies consumed; with too few, the end-of-stream error after the prompts answered and one unanswered prompt; on a closed connection OSError and nothing changes (server.py:120-125 is the same loop) |
| Utilities.FormatServerInfo | utilities.py:38-40 | the line is `version: ` followed by the version, `, build: ` and the build date |
| UserDao.Projection | user_dao.py:26-28 | the record saved has exactly the keys password_hash, email and role, each the dict's value or None |
| UserDao.SaveKey | user_dao.py:25-29 | a record is saved exactly when the username is a non-empty string, under that username |
| UserDao.UserStore.GetUser | user_dao.py:18-20 | the stored record, and None exactly when there is none |
| UserDao.UserStore.UserExists | user_dao.py:13-15 | true exactly when `get_user` finds a record |
| UserDao.UserStore.SaveUser | user_dao.py:23-30 | the projection is stored under the username when there is one; otherwise nothing changes |
| UserDao.UserStore.DeleteUser | user_dao.py:33-35 | the username is no longer a key and every other record is unchanged |
| UserModel.NewUser | user_model.py:6-12 | a new user is not logged in, keeps the fields given, and an empty inbox becomes None |
| UserModel.LogIn | user_model.py:15-22 | a logged-in user exactly when the record is non-empty and its hash is the hash of the password; None for an unknown user or a wrong password; the indexing error for a record without a hash (corrected, see Findings) |
| UserModel.LogInAsWrittenNeverSucceeds | user_model.py:17-19 | as written, every correct password raises TypeError, and every other case agrees with `LogIn` (Findings) |
| UserModel.RegistrationRecord | user_model.py:28-33 | the stored record holds the password's hash, the email and the role, and it is keyed by the username when that is non-empty |
| UserModel.Register | user_model.py:25-36 | true exactly when the username is new; then the record is stored (nothing for an empty username); false leaves the store unchanged |
| UserModel.DeleteAccount | user_model.py:39-44 | true exactly when the user existed; afterwards the user is gone and the other records are unchanged |
| UserModel.Delivered | user_model.py:52 | succeeds exactly when the record has a dict inbox; then the inbox maps the key to the message, every other inbox key is unchanged, and the record keeps its keys |
| UserModel.SendMessage | user_model.py:46-54 | false exactly when there is no non-empty record for the recipient; true with the message delivered into that record under the key made of the moment and the sender; on an error nothing changes |
| UserModel.SendToRegisteredAccountRaises | user_model.py:52 | a record `save_user` wrote has no inbox, so delivering to it raises KeyError("inbox") |
| MessageDao.MessageId | message_dao.py:16-24 | the id is the hash of the moment followed by the sender, and TypeError exactly when the sender is not a string |
| MessageDao.Checked | message_dao.py:30-38 | the checks in order: TypeError for a non-dict, ValueError for a blank or non-string recipient, the id error, ValueError for missing fields; success exactly when all pass |
| MessageDao.CheckedOwner | message_dao.py:67-72 | TypeError for a non-string, ValueError for a blank name, KeyError for an unknown user; otherwise the name |
| MessageDao.GetAll | message_dao.py:64-79 | always `{username: inbox}`, with `{}` for an empty or missing inbox; the owner check's error otherwise (corrected, see Findings) |
| MessageDao.Save | message_dao.py:27-44 | the checks' error, or the inbox with the message under its id while the other inboxes stay as they were (corrected, see Findings) |
| MessageDao.SecondSaveFailsAsWritten | message_dao.py:39-41 | as written, after a first save into an empty inbox, a second save to the same user raises KeyError (Findings) |
| MessageDao.FirstSaveAgrees | message_dao.py:39-41 | on an inbox that is still empty, the written save and the corrected one agree |
| MessageDao.CharAt | message_dao.py:58 | Python string indexing: one character, counted from the end for a negative index, and IndexError outside the range |
| MessageDao.DeletedKey | message_dao.py:47-61 | the checks of `delete_message` in order, and the key it deletes is the single character `username[message_id]` |
| MessageDao.MailStore.CreateInbox | message_dao.py:12-13 | the user's inbox is set to an empty dict |
| MessageDao.MailStore.SaveMessage | message_dao.py:27-44 | the inboxes become those of `Save`; nothing changes on an error |
| MessageDao.MailStore.DeleteMessage | message_dao.py:47-61 | succeeds exactly when the checks pass; then the key `username[message_id]` is removed and nothing else changes |
| LegacyUser.LegacyStore.Fetch | user.py:32 | the stored record, and None exactly when there is none |
| LegacyUser.NewRecord | user.py:33 | the new record holds the password, role "user" and an empty inbox |
| LegacyUser.User.constructor | user.py:5-10 | a new user has no login, role "user", is logged out and has an empty inbox |
| LegacyUser.User.LogIn | user.py:19-25 | false for an unknown user; true and logged in for the right password; None and the flag unchanged for a wrong one |
| LegacyUser.User.LogOut | user.py:27-28 | the flag is cleared and nothing else changes |
| LegacyUser.Add | user.py:31-36 | true exactly when the name is new, and then the new record is stored; otherwise nothing changes |
| LegacyUser.Remove | user.py:39-44 | true exactly when the user exists, and then the record is removed; otherwise nothing changes |
| LegacyUser.AddedUserAuthenticates | user.py:19-36 | a user just added passes the password check with the password given and with no other |
| Menu.FindSpec | menu.py:86-90 | a command is found exactly when some entry of the table has it, and the handler found is that entry's |
| Menu.ExitHandlers | menu.py:16-38 | `exit` ends the client's session in the logged-out and user tables, shuts the server down in the administrator's, and is not a command of the submenu |
| Menu.HandlerNamesFolded | menu.py:16-47 | every command name is already case-folded, so a folded command can match it |
| Menu.StateFor | menu.py:49-56 | no user gives the logged-out menu, role "admin" the administrator's, any other role the user's |
| Menu.HandlerFor | menu.py:83-90 | the handler the current menu's table binds the command to, and KeyError exactly when it binds none (corrected, see Findings) |
| Menu.SubmenuCommandsLostAsWritten | menu.py:83-90 | as written, every submenu command but help raises KeyError for an administrator, while the corrected lookup finds each (Findings) |
| Menu.HandlerAsWrittenAgreesInMainMenus | menu.py:83-90 | outside the submenu the written lookup and the corrected one agree |
| Menu.RegistrationFields | menu.py:114-120 | three fields when logged out, four with the role for an administrator, UnboundLocalError for a user |
| Menu.AnswerIsReply | menu.py:157 | reading a field back from the form gives the reply to its prompt |
| Menu.Endpoint.ProcessLogin | server.py:92-103 | one attempt, in every case: OSError on a closed connection; the end-of-stream error after the unanswered prompt when the replies run out; otherwise the two-field dialogue, then the exception of `LogIn` escapes, or the user becomes its result and the reply says which (built on the corrected `UserModel.LogIn`, see Findings) |
| Menu.Endpoint.ProcessRegistration | server.py:85-90 | in every case: OSError on a closed connection and the end-of-stream error after the unanswered prompt when the replies run out, both with the accounts unchanged; a completed form registers the answers as `Registered` gives, with the role asked for or the default, and sends the success or failure reply |
| Menu.Endpoint.ProcessLogout | server.py:105-107 | the user is forgotten and the logged-out text is sent |
| Menu.Endpoint.GetUserData | menu.py:129 | the stored record, or None, is sent for display as a table |
| Menu.Endpoint.ProcessAccountDeletion | server.py:161-164 | the account is gone afterwards, and the reply says whether it existed |
| Menu.Menu.constructor | menu.py:12-14 | no current commands; the client starts in the logged-out menu |
| Menu.Menu.SetState | menu.py:58-71 | the menu's table becomes current and is sent with its title and a prompt |
| Menu.Menu.UpdateMenuState | menu.py:49-56 | the menu becomes the one `StateFor` picks for the server's user, its table current and sent |
| Menu.Menu.HandleLogin | menu.py:110-112 | OSError on a closed connection, the end-of-stream error when the replies run out, and the exception of `LogIn`, each with the menu and the user unchanged; otherwise Ok: the user becomes what `LogIn` gives, the reply is sent, and the main menu for that user becomes current and is sent with the prompt (built on the corrected `UserModel.LogIn`, see Findings) |
| Menu.Menu.HandleRegistration | menu.py:114-121 | a user gets UnboundLocalError and nothing is sent; a closed connection gives OSError and an unfinished form the end-of-stream error, with the menu and the accounts unchanged; a completed form on an open connection gives Ok, registers as `Registered` gives, sends the success or failure reply, and re-enters the main menu |
| Menu.Menu.HandleLogout | menu.py:123-125 | no user; on an open connection the logged-out text and then the logged-out menu, whose table becomes current; on a closed one OSError and the menu unchanged |
| Menu.Menu.HandleUserInfo | menu.py:127-132 | without a user, AttributeError; on a closed connection, OSError; otherwise a user first gets their own record, then the username is asked for: with no reply left the end-of-stream error, else Ok, the reply consumed and that username's record sent; the menu and the accounts are unchanged |
| Menu.Menu.HandleClientExit | menu.py:134-138 | Goodbye is sent, the connection is closed, and ConnectionAbortedError is raised; nothing else changes |
| Menu.Menu.HandleInbox | menu.py:140-141 | nothing changes and nothing is sent |
| Menu.Menu.HandleServerInfo | menu.py:143-145 | the version and build date line is sent and nothing else changes |
| Menu.Menu.HandleUptimeDisplay | menu.py:147-148 | the uptime text is sent and nothing else changes |
| Menu.Menu.HandleUsersManagement | menu.py:150-153 | the submenu's table becomes current and is sent, without a prompt |
| Menu.Menu.HandleUserDeletion | menu.py:155-158 | OSError on a closed connection, and the end-of-stream error after the prompt when no reply is left, both with the accounts unchanged; otherwise Ok: the reply is consumed, that account is deleted, and the reply says whether it existed |
| Menu.Menu.HandleReturn | menu.py:160-162 | the administrator's menu becomes current and is sent with the prompt |
| Menu.Menu.HandleServerShutdown | menu.py:164-168 | the connection is closed and SystemExit is raised; nothing is sent |
| Menu.Menu.HandleHelp | menu.py:170-171 | the current table is sent again and nothing else changes |
| Menu.Menu.Run | menu.py:103-104 | the handler a table binds has exactly the effect of its own method above, one per handler |
| Menu.Menu.HandleCommand | menu.py:92-108 | an unknown folded command gets the error envelope with the current table and False, and nothing else changes; a command the current menu does not bind gets the generic error envelope and None; a bound handler has its full effect (`Effect`, which says for every handler when it succeeds), then a normal return gives True, an Exception the generic error envelope and None, SystemExit escapes (built on the corrected `Menu.HandlerFor`, see Findings) |
| Server.ReceiveFrame | server.py:60-83 | however the network splits the stream, the result and the bytes left unread are those of `ReadFrameAsOlder`: ValueError with no header, otherwise a body of at most the announced length |
| Server.OlderBodyBounded | server.py:69-74 | the body read is never longer than the header announces, and shorter only once the peer has closed |
| Server.OlderReadsWholeFrame | server.py:60-83 | a frame written by `send` whose header arrives whole is read back as the message sent |
| Server.Server.constructor | server.py:13-31 | no user and no command tables yet |
| Server.Server.Register | server.py:85-90 | in every case: OSError on a closed connection and the end-of-stream error after the unanswered prompt when the replies run out, both with the accounts unchanged; a completed form on an open connection gives Ok, registers the answers with the default role, and sends the success reply with the current table or the failure reply |
| Server.Server.LogIn | server.py:92-103 | OSError on a closed connection, the end-of-stream error when the first form is left unfinished, and the exception of `LogIn` escape; replies that `LogIn` accepts give Ok with that user, greeted and shown the main menu of the role; replies it turns down are followed by the `error` reply and the loop asks again; it ends normally only with a logged-in user whom `LogIn` accepts (built on the corrected `UserModel.LogIn`, see Findings) |
| Server.Server.LogInAttempt | server.py:93-103 | one pass of the loop: it finishes with the effect `LogIn` states, or, when `LogIn` turns the two replies down, it has consumed them, set no user and sent the `error` reply (built on the corrected `UserModel.LogIn`, see Findings) |
| Server.Server.LogOut | server.py:105-108 | no user; on an open connection the logged-out text, then the logged-out menu, whose table becomes current; on a closed one OSError and the tables as they were |
| Server.Server.GetUsers | server.py:116-118 | always AttributeError, since the User class has no `get` |
| Server.Server.RunMainMenu | server.py:127-137 | the table and title for no user, role admin and role user; any other role changes nothing |
| Server.Server.AddUser | server.py:146-154 | OSError on a closed connection and the end-of-stream error after the unanswered prompt when fewer than four replies are left, with the accounts unchanged; four replies on an open connection give Ok: the prompts and replies in order, registration with the role given, and `User ... added successfully!` or `Operation failed!` |
| Server.Server.DeleteUser | server.py:155-164 | OSError on a closed connection; the end-of-stream error after the prompt, or after the confirmation question when only the username came; with two replies, Ok: the username dialogue, the question, the answer, and only on Y in any case the deletion and its report; the accounts change only then |
| Server.Server.RunManageUsersMenu | server.py:139-181 | on an open connection the submenu's table is the first thing sent; it ends normally only on `return`, with an empty reply last and the submenu's table still in the administrator's table field |
| Server.Server.RunManageUsersCommand | server.py:145-178 | one clause per arm of the submenu's match: `add` and `delete` run the `AddUser` and `DeleteUser` dialogues in every case; `show` sends `Enter username: `, takes the reply and then fails with AttributeError (OSError when closed, the end-of-stream error with no reply); `show all` fails with AttributeError and sends nothing; `return` sends one empty reply and is the only command that finishes; `help` sends the submenu's table and then `Admin Main Menu` with the administrator's table, which it loads; any other command does nothing. The trace only grows, and the user and the user's table are unchanged |
| Server.Server.RunUserMenu | server.py:183-198 | an unknown folded command gets the error envelope with the user's table; help sends the command list with that table; info raises AttributeError; sign out has the effect of `LogOut`; inbox, disconnect and any other command send nothing and change nothing; the pending replies and the accounts are never touched |
| Server.Server.RunAdminMenu | server.py:200-223 | an unknown folded command gets the error envelope with the administrator's table; info sends the version line, uptime the uptime line, help the command list with the table; close closes the connection and exits; users runs the submenu, whose table is sent first and stays in the table field after a normal return; sign out has the effect of `LogOut`; any other command changes nothing |
| Server.Server.Dispatch | server.py:228-245 | logged out, the logged-out table is loaded and the line matched literally: log in has the effect of `LogIn`, register that of `Register` with the three fields, any other command of the table does nothing, anything else gets the error envelope with that table; logged in, role user has the effect of `RunUserMenu`, role admin that of `RunAdminMenu`, any other role nothing |
| Server.Server.Start | server.py:41-42 | the logged-out table becomes current and the greeting is sent with it |
| Server.Server.Run | server.py:225-251 | it always ends in SystemExit once the greeting went out; a failed greeting escapes as itself |
| Client.TypingPrintableAppends | client.py:120-123 | typing printable keys appends exactly those characters to the buffer |
| Client.BackspaceUndoesKey | client.py:116-123 | backspace undoes a printable key and does nothing on an empty buffer |
| Client.ControlKeysIgnored | client.py:120-122 | a non-printable key other than Enter and backspace leaves the buffer unchanged |
| Client.ClientReadsEnvelope | client.py:66-72 | a frame the server sent is read back as the envelope's dict, with its status, message and data |
| Client.PromptFrameSetsAwaiting | client.py:67-69 | the ready_for_input frame is read with that status, so it sets the flag and is not shown |
| Client.Client.constructor | client.py:17-27 | a fresh client does not await input, its buffer is empty and the socket is open |
| Client.Client.Send | client.py:45-59 | the frame of the formatted envelope is written; if that fails with anything but a ConnectionError, the frame of an error envelope with the exception text; a ConnectionError and the second attempt's failure escape |
| Client.Client.HandleResponse | client.py:61-81 | ready_for_input sets the flag and is not shown; any other envelope is shown exactly when its message or data is non-empty; BrokenPipeError and ConnectionResetError become ConnectionError, ValueError becomes RuntimeError; a non-dict has no `get` |
| Client.Client.DisplayPrompt | client.py:83-87 | the prompt is shown exactly when input is awaited, and the flag is clear afterwards |
| Client.Client.KeyPress | client.py:107-123 | Enter on "close" in any case closes without sending; Enter on anything else sends the buffer, empties it and clears the flag; any other key edits the buffer as `Edited` says; a dropped peer raises ConnectionResetError and nothing is written |
| Client.Client.SubmitLine | client.py:130-137 | the stripped line "close" in any case closes without sending; any other is sent and the flag cleared; a dropped peer raises ConnectionResetError and nothing is written |
| Client.Client.Handle | client.py:146-158 | RuntimeError and ValueError are shown and the loop goes on; a ConnectionError ends the loop; KeyError is raised again as ValueError; no ConnectionError or RuntimeError escapes |
| Client.Client.Step | client.py:101-158 | a lost connection never escapes; closing the socket ends the loop; a pass cut short by an exceptional socket went on only after showing an error; a line sent to a dropped peer ends the loop |
| Client.Client.Run | client.py:96-161 | the socket is closed however the loop ends, and no ConnectionError or RuntimeError escapes |

## Left out

- Sockets, `select` and `msvcrt` are not modelled as I/O. The peer's bytes are `Communication.Channel`'s `inbound`, the client's lines are `Session.Conversation`'s `incoming`, and each pass of the client loop is a `Client.Tick`.
- `json.dumps`/`json.loads` and UTF-8 are the parameter `Communication.Codec`. The model uses only the round trip `Faithful` states, not JSON syntax.
- `UserDAO.hash_password` (SHA-256), the SHA-1 of `generate_message_id`, `datetime.now` and `calculate_uptime` are parameters: a hash function, a timestamp string or `Stamp`, and an uptime text.
- `db_manager.py`, `message.py` and `display.py` are not part of this model. `DbManager` is a map from username to record, and `Display.display_message` is an entry in `Client.Client.screen`.
- `load_menu_config` and `menu_config.json` are not part of this model. The tables they give are the parameter `Menu.MenuConfig`.
- Logging, `print` of status lines, `sleep(2)`, `clr_screen`, `Client.connect`, key echo and the server's listening socket are not modelled. They decide nothing the model states.
- Server.ReceiveFrame: the `.strip()` of the decoded text before `json.loads` is not modelled; the joined body is decoded as it is.
- Server.ReceiveFrame: its `except ValueError` branch is not modelled, because nothing inside its `try` raises ValueError.
- Session.Conversation.Send: on the server side a write to a connection the peer has dropped is assumed to succeed. The ConnectionError that `send` re-raises there is not produced. The client side models it (`Communication.Channel.peerGone`).
- Communication.Channel: a dropped peer is fixed for the channel's life (`peerGone`); a peer that drops between two writes is not modelled, and `recv` never raises ConnectionResetError.
- Client.Client.HandleResponse: the client's socket is non-blocking (client.py:37), so a body `recv` that runs ahead of the network raises BlockingIOError, an OSError that escapes `run`. `Channel.Recv` always waits for bytes, so this is not produced.
- Client.Client.HandleResponse: a displayed envelope is an entry in `screen`. In the source, `Display.display_message` (display.py:7-8) iterates the dict's keys and calls `.items()` on each string key, so every displayed envelope raises AttributeError, which escapes `run`; display.py is not part of this model.
- Session.Conversation.Receive: a client reply is the `message` text of its envelope, since `client.py` only sends strings. A reply without a `message` key is not modelled.
- Server.Server.LogIn: states the first attempt in full; after a turned-down first attempt it states only that attempt's dialogue and reply, and how the loop ends, not the later attempts.
- Server.Server.Register: takes any form; for one without the username, password or email field it reads that answer as "" where the source raises KeyError. Every caller passes a form with all three.
- Server.Server.RunManageUsersMenu: states the first table sent and how the loop ends; each known command of a pass is stated by `RunManageUsersCommand`, but the loop's contract is not one trace of the whole submenu, and the unknown-command reply of a pass is not stated.
- Client.Client.Step: states how a pass ends, not everything it sends.
- Client.Client.Run: the source loop runs until the socket closes or is lost; the model stops when its ticks run out.
- Client.Text: `str(e)` is modelled for exceptions that carry a message; for JSONDecodeError and the rest it is empty.
- Values.Lower: `casefold`, `lower` and `upper` are modelled on ASCII letters only.
- Values.IsPrintable: exact on Latin-1; above that, only the space separators and common format characters are told apart.
- UserDao.UserStore.SaveUser: a truthy username that is not a string is not modelled; usernames are strings.
- Menu.Endpoint: stands for the server that `menu.py` drives, which is not part of this model. Its operations follow their `server.py` counterparts, with one login attempt per command and no confirmation before a deletion.
- `MessageDAO.delete_message` is modelled as written. It deletes the database key `username[message_id]`, a single character of the name, not a message. With no stated intent to compare against, it is a behaviour the model states, not a finding.
- `Server.get_users` always fails with AttributeError, so the `show` and `show all` commands of the user-management menu end that menu with the exception.

## Findings

| source | as written | input that shows it | evidently intended | confidence | as-written member | corrected member |
|---|---|---|---|---|---|---|
| communication.py:70-73 | the 4-byte header is read with one `recv(4)`, and whatever came back is taken as the length | a frame whose first read returns only 1 header byte | read until all four header bytes are in | not executed | Communication.ShortHeaderRefusesFrame | Communication.CommunicationProtocol.Receive |
| communication.py:78-81 | the body loop stops only when `remaining` reaches 0, and an empty chunk subtracts nothing | the peer closes after fewer body bytes than the header announced | report the closed connection | not executed | Communication.TruncatedBodyHangs | Communication.CommunicationProtocol.Receive |
| user_model.py:19 | `cls(**user_data)` is built from the stored record, which has a `password_hash` key that `__init__` does not take, so every correct password raises TypeError; in the server (server.py:96) it reaches `run`, whose `except Exception` exits | any registered user logging in with the right password | a logged-in user built from the username and the record's fields | not executed | UserModel.LogInAsWrittenNeverSucceeds | UserModel.LogIn |
| menu.py:83-90 | the handler table is chosen by the user's role alone, ignoring the user-management submenu, so every submenu command but help raises KeyError at menu.py:103 | an administrator in the submenu sends `back` | look the command up in the table of the menu the client is in | not executed (the menu configuration file is not available) | Menu.SubmenuCommandsLostAsWritten | Menu.HandlerFor |
| message_dao.py:73-76 | `get_all` returns a non-empty stored inbox without the `{username: ...}` wrapper that `save_message` indexes | two `save_message` calls for the same user | always return `{username: inbox}` | not executed | MessageDao.SecondSaveFailsAsWritten | MessageDao.Save |
