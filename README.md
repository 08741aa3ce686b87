# CppChat in Dafny

A model of the core of CppChat, a terminal chat program in C++, with proofs
of what the core does. It has three parts, one module each.

- `ChatClient` (client.dfy) models `src/client.cpp`:
  - the prompt line editor (a character vector and a cursor, edited in place);
  - the chat log and the three ways of adding a coloured line to it;
  - `parse_prompt`, the command table and `find_command`;
  - the column `sync_cursor_with_terminal` moves the terminal cursor to;
  - the key dispatch of `main`'s loop.

  The keys `getch` returns are a parameter. A command that runs is returned as
  an `Invocation`: `connect` and `disconnect` are recorded as invocations and
  not performed, while `quit` also sets the client's quit flag.
  `Session` is the specification of the loop: it maps a key sequence to the
  final screen and the commands run. `MainLoop` is proved equal to it. The
  lemmas then state what typing a line and pressing Enter does.
- `Channel` (channel.dfy) models the `mpsc` channel of `src/Channel/channel.hpp`:
  - the shared `Inner` state (a deque and an `unsigned` count of senders);
  - the Sender's constructors, copy assignment, destructor and `send`;
  - the Receiver's `recv` and `try_recv`;
  - `make_channel`.

  Every operation is a method on objects, tied to a function on the `State`
  value. The three scenarios of `tests/channelTests.cpp` are methods whose
  results are stated.
- `ChatServer` (server.dfy) models `src/server.cpp`:
  - the three arms of `MessageHandler` over the `Clients` map, with the
    greeting writes recorded;
  - the events the per-connection task `client` sends for a given sequence of
    read results;
  - the loop of `server`, which hands each received event to the handler.

`Option` lives in wrappers.dfy.

Three behaviours of the code are easy to miss, and the model keeps them:
- The channel is last-in, first-out. `send` pushes at the front of the deque
  and `recv` takes from the front. `Channel.LastInFirstOut` and
  `ChatServer.StaleEntryAfterQuickDisconnect` show the consequences.
- The sender count starts at 0. The converting constructor does not count
  itself, and `make_channel` returns a Sender that is not counted.
  `Channel.LastSenderNeverCloses` shows the consequence.
- `NewMessage` is handled by an empty arm, so nothing is broadcast. The
  connection task never sends `NewMessage`.

`disconnect_msg` and `info_msg` exist but nothing uses them.

## Model

| member | source | states |
|---|---|---|
| ChatClient.Inserted | src/client.cpp:22-25 | the character lands at the cursor; text before the cursor and after it is kept; the cursor moves one past it |
| ChatClient.Erased | src/client.cpp:27-32 | at column 0 nothing changes; otherwise exactly the character before the cursor is removed and the cursor moves back one |
| ChatClient.MovedLeft | src/client.cpp:34-36 | the text is kept; the cursor moves back one, and stays put exactly when it is at 0 |
| ChatClient.MovedRight | src/client.cpp:38-40 | the text is kept; the cursor moves forward one, and stays put exactly at the end of the text |
| ChatClient.InsertThenErase | src/client.cpp:22-32 | typing a character and then pressing backspace restores the prompt |
| ChatClient.MovesUndoEachOther | src/client.cpp:34-40 | away from the edges, left and right undo each other; at the edges they do nothing |
| ChatClient.Prompt.constructor | src/client.cpp:196 | a value-initialised prompt is empty with the cursor at 0 |
| ChatClient.Prompt.Put | src/client.cpp:22-25 | the prompt keeps its invariant and becomes `Inserted` of its old value |
| ChatClient.Prompt.Backspace | src/client.cpp:27-32 | the prompt keeps its invariant and becomes `Erased` of its old value |
| ChatClient.Prompt.MoveCursorLeft | src/client.cpp:34-36 | the prompt becomes `MovedLeft` of its old value |
| ChatClient.Prompt.MoveCursorRight | src/client.cpp:38-40 | the prompt becomes `MovedRight` of its old value |
| ChatClient.Prompt.Clear | src/client.cpp:42-45 | the prompt becomes empty, with the cursor at 0 |
| ChatClient.Prompt.PromptString | src/client.cpp:47-49 | the string holds the prompt's characters, in order |
| ChatClient.Prompt.CursorColumn | src/client.cpp:51-54 | the column is `min` of the unsigned sum x + cursor and the width: x + cursor when it fits; the width when it is reached, without wrap-around; the wrapped sum when the sum wraps and fits; the width when the sum wraps but is still too wide |
| ChatClient.ChatLog.constructor | src/client.cpp:95 | a new log has no lines |
| ChatClient.ChatLog.Put | src/client.cpp:80-82 | exactly one line, with the given text and colour, is appended |
| ChatClient.Msg | src/client.cpp:98-100 | appends the message in the Regular colour |
| ChatClient.ErrMsg | src/client.cpp:102-104 | appends the message in the Error colour |
| ChatClient.InfoMsg | src/client.cpp:106-108 | appends the message in the Info colour |
| ChatClient.IndexOf | src/client.cpp:167-169 | the result is the first position of the character; None exactly when the character is absent |
| ChatClient.ParsePrompt | src/client.cpp:157-175 | None exactly when the prompt is empty or does not start with '/'; a parsed name never contains a space |
| ChatClient.ParseSplitsAtFirstSpace | src/client.cpp:164-174 | with a space after the '/', "/" + name + " " + argument is the prompt again; without one, the rest is the name and the argument is empty |
| ChatClient.ParseFormatted | src/client.cpp:167-171 | "/name argument", for a name without a space, parses to (name, argument) |
| ChatClient.ParseBare | src/client.cpp:173-174 | "/name", for a name without a space, parses to (name, "") |
| ChatClient.FindIn | src/client.cpp:184-192 | a found entry is in the table and has the name; None exactly when no entry has the name; the entry found is the first with that name (no earlier entry has it) |
| ChatClient.FindCommand | src/client.cpp:184-192 | a found entry is one of the three commands and has the name; the result is the null pointer exactly when no command has the name |
| ChatClient.CommandTable | src/client.cpp:177-192 | `find_command` answers exactly for "connect", "disconnect" and "quit", each with its own table entry |
| ChatClient.SignaturesInvoke | src/client.cpp:177-182 | each entry of `COMMANDS` has a signature that, typed at the prompt, parses to the entry's own name, and the lookup finds that entry |
| ChatClient.Ctrl | src/client.cpp:11 | a control code lies in 0..31 |
| ChatClient.CtrlIsMask | src/client.cpp:11 | for 8-bit characters, the code is `x & 0x1F` |
| ChatClient.ControlCodes | src/client.cpp:213-219 | ctrl-c, ctrl-h and ctrl-l are 3, 8 and 12 |
| ChatClient.IsPrint | src/client.cpp:245-248 | no printable key is ERR, 127, KEY_BACKSPACE, Enter, ctrl-c, ctrl-h or ctrl-l, so printable keys all reach the default branch |
| ChatClient.Submit | src/client.cpp:226-244 | the prompt is cleared; the log gains at most one line; when no command runs, one line is added and the quit flag is kept; when a command runs, the log is kept and the flag is set exactly for quit |
| ChatClient.SubmitChatText | src/client.cpp:239-242 | a line not starting with '/' is logged once in Regular, and nothing runs |
| ChatClient.SubmitUnknownCommand | src/client.cpp:231-242 | "/name" or "/name argument" with an unknown name logs "Unknown command" in Error, and nothing runs |
| ChatClient.SubmitKnownCommand | src/client.cpp:231-242 | a known command runs with its argument ("" when there is none); the log is kept; the client quits exactly for "quit" |
| ChatClient.Decode | src/client.cpp:211-249 | a key types a character exactly when it is printable, and that character is the key's code; Enter is exactly 10; interrupt is exactly ctrl-c |
| ChatClient.Apply | src/client.cpp:212-249 | the prompt invariant is kept; only Enter can touch the log or run a command, and it adds at most one line |
| ChatClient.Step | src/client.cpp:210-249 | the prompt invariant is kept; any key other than Enter leaves the log alone and runs nothing |
| ChatClient.StepKeys | src/client.cpp:212-249 | what each key does: printable keys insert, ctrl-h and ctrl-l move, 127 and KEY_BACKSPACE erase, ctrl-c quits, Enter submits, every other key does nothing; the flag is set only by ctrl-c or the quit command |
| ChatClient.Session | src/client.cpp:209-250 | the log only grows; the commands run so far stay a prefix; a session that has quit, or has no keys left, is over |
| ChatClient.TypingAppends | src/client.cpp:245-248 | typing printable characters at the end of the prompt appends them, changes nothing else, and runs nothing |
| ChatClient.EnterPressed | src/client.cpp:226-244 | Enter is one `Submit`, and the session goes on with the keys after it |
| ChatClient.ChatLineLogged | src/client.cpp:209-250 | typing a non-command line and pressing Enter logs it once in Regular, leaves an empty prompt and runs nothing |
| ChatClient.UnknownCommandReported | src/client.cpp:209-250 | typing "/name" for an unknown name and pressing Enter logs "Unknown command" in Error and runs nothing |
| ChatClient.SubmitQuit | src/client.cpp:231-242 | Enter on "/quit" runs quit with "" and sets the quit flag |
| ChatClient.QuitCommandEndsSession | src/client.cpp:209-250 | typing "/quit" and pressing Enter runs quit once; the keys after it are never read |
| ChatClient.SessionAdvance | src/client.cpp:209-250 | one key moves the session on and records the command it ran |
| ChatClient.Client.constructor | src/client.cpp:110-114 | a new client has an empty chat log and is not quitting |
| ChatClient.SetQuit | src/client.cpp:138-140 | sets the quit flag |
| ChatClient.HandleKey | src/client.cpp:211-249 | the objects after one key, with the command run, are exactly `Step` of the state before it |
| ChatClient.MainLoop | src/client.cpp:209-250 | the final objects and the commands run are `Session` of the initial state over the keys; stopping before the last key means the client quit |
| Channel.Incremented | src/Channel/channel.hpp:27 | `senders++` on an unsigned: +1 modulo 2^32 |
| Channel.Decremented | src/Channel/channel.hpp:41 | `senders--` on an unsigned: -1 modulo 2^32 |
| Channel.Copied | src/Channel/channel.hpp:25-36 | a copy keeps the queue and counts one more sender |
| Channel.Dropped | src/Channel/channel.hpp:38-46 | a destruction keeps the queue and counts one sender less, with wrap-around |
| Channel.Notifies | src/Channel/channel.hpp:41-45 | a destruction notifies exactly when it leaves the last counted Sender, a count of 1 before it |
| Channel.Pushed | src/Channel/channel.hpp:48-54 | `send` puts the item at the front and keeps the rest of the queue and the count |
| Channel.Take | src/Channel/channel.hpp:74-88 | an item is handed out exactly when the queue is non-empty: the front, removed from the queue; Closed exactly when the queue is empty and the count is 0; Closed and a wait change nothing |
| Channel.Poll | src/Channel/channel.hpp:90-98 | Nothing exactly on an empty queue, whatever the count, with nothing changed; otherwise the front is removed |
| Channel.Opened | src/Channel/channel.hpp:105-111 | `make_channel` leaves an empty queue with a count of 0 |
| Channel.SendAllQueue | src/Channel/channel.hpp:48-54 | a run of sends puts the items before what was queued, last sent first, and keeps the count |
| Channel.SendAllSnoc | src/Channel/channel.hpp:48-54 | one more send after a run of sends pushes that item on top |
| Channel.Drained | src/Channel/channel.hpp:74-88 | receiving until nothing is handed out yields the queue in order, then Closed when the count is 0 and a wait otherwise |
| Channel.LastInFirstOut | src/Channel/channel.hpp:48-88 | items sent into an empty channel come out in reverse order, and Closed is reported only after the last one |
| Channel.LatestFirst | src/Channel/channel.hpp:48-88 | the first `recv` after a run of sends returns the last item sent |
| Channel.SendThenTake | src/Channel/channel.hpp:48-88 | one send followed by `recv` returns the item and restores the state |
| Channel.CopiesThenDrops | src/Channel/channel.hpp:25-46 | n copies followed by n destructions restore the state, wrap-around included |
| Channel.LastSenderNeverCloses | src/Channel/channel.hpp:105-111 | destroying the Sender `make_channel` returns does not notify and leaves the count at 2^32-1; an empty channel then waits instead of closing |
| Channel.Inner.constructor | src/Channel/channel.hpp:12-18 | a new state has an empty queue and a count of 0 |
| Channel.Sender.constructor | src/Channel/channel.hpp:23 | the converting constructor shares the state and does not count |
| Channel.Sender.Copy | src/Channel/channel.hpp:32-36 | the copy shares the other Sender's state, which becomes `Copied` of what it was |
| Channel.Sender.Assign | src/Channel/channel.hpp:25-30 | the target shares the other Sender's state, which becomes `Copied`; the state held before keeps its count |
| Channel.Sender.Drop | src/Channel/channel.hpp:38-46 | the state becomes `Dropped`; the notification fires exactly when the count reaches 0 |
| Channel.Sender.Send | src/Channel/channel.hpp:48-54 | the state becomes `Pushed` with the item |
| Channel.Receiver.constructor | src/Channel/channel.hpp:64 | the Receiver shares the state it is given |
| Channel.Receiver.Recv | src/Channel/channel.hpp:74-88 | the result and the new state are `Take` of the old state |
| Channel.Receiver.TryRecv | src/Channel/channel.hpp:90-98 | the result and the new state are `Poll` of the old state |
| Channel.MakeChannel | src/Channel/channel.hpp:105-111 | a fresh state shared by the new Sender and Receiver, equal to `Opened` |
| Channel.PingPong | tests/channelTests.cpp:22-28 | the value sent, 5, is the value received |
| Channel.SenderClose | tests/channelTests.cpp:30-38 | after a moved Sender leaves scope, `recv` reports Closed |
| Channel.ReceiverClose | tests/channelTests.cpp:40-48 | with the Receiver gone, a send still queues the item |
| ChatServer.Connected | src/server.cpp:37-50 | the endpoint becomes a key and every other entry is kept; a new endpoint is mapped to its socket and greeted once; a registered endpoint changes nothing and gets no write |
| ChatServer.Disconnected | src/server.cpp:52-64 | exactly the endpoint is removed; every other entry is kept; nothing is written |
| ChatServer.Dispatch | src/server.cpp:37-66 | each event goes to its own arm: a connection gives `Connected` of the registry, a disconnection gives `Disconnected`, and a new message changes nothing; only a connection writes |
| ChatServer.ConnectThenDisconnect | src/server.cpp:37-64 | connecting a new endpoint and then disconnecting it restores the map; the greeting stays written |
| ChatServer.ConnectIdempotent | src/server.cpp:45-49 | a second connection from a registered endpoint is ignored: the first socket stays, and no second greeting is written |
| ChatServer.DisconnectIdempotent | src/server.cpp:52-64 | disconnecting twice is disconnecting once |
| ChatServer.MessageHandler.constructor | src/server.cpp:94-95 | the handler starts over an empty map and has written nothing |
| ChatServer.MessageHandler.OnConnected | src/server.cpp:37-50 | the handler's state becomes `Connected` of its old state |
| ChatServer.MessageHandler.OnDisconnected | src/server.cpp:52-64 | the handler's state becomes `Disconnected` of its old state |
| ChatServer.MessageHandler.Visit | src/server.cpp:99 | the handler's state becomes `Dispatch` of its old state |
| ChatServer.ReadEvents | src/server.cpp:80-90 | the reads emit at most one event, and that event is `ClientDisconnected` of the peer; a zero first read emits it at once |
| ChatServer.Trace | src/server.cpp:72-91 | a task sends one or two events: `ClientConnected` of its socket first, then possibly `ClientDisconnected` of its peer |
| ChatServer.ReadEventsShape | src/server.cpp:80-90 | the reads emit `ClientDisconnected` alone when some read returns 0, and nothing otherwise |
| ChatServer.TraceShape | src/server.cpp:72-91 | a connection first announces itself, sends `ClientDisconnected` exactly when a read returns 0, and never sends `NewMessage` |
| ChatServer.ReadOneMore | src/server.cpp:80-90 | one more read adds `ClientDisconnected` to the trace exactly when it returns 0 |
| ChatServer.ClientTask | src/server.cpp:72-91 | the task stops exactly at the first zero read; the channel holds its trace sent in order; its Sender is destroyed exactly when the task returns |
| ChatServer.Serve | src/server.cpp:93-102 | serving keeps the count of senders and never removes a write |
| ChatServer.ServeIdle | src/server.cpp:97-101 | with nothing queued, the loop changes nothing however long it runs |
| ChatServer.OnlyGreetingsWritten | src/server.cpp:11-50 | however many events are handled, every write is the whole 45-character greeting |
| ChatServer.ServeQueued | src/server.cpp:97-101 | as many rounds as queued events dispatch them all, front first, and empty the queue |
| ChatServer.StaleEntryAfterQuickDisconnect | src/server.cpp:72-101 | when a connection and its disconnection are both queued before the server runs, the client stays registered after both are handled |
| ChatServer.Server | src/server.cpp:93-102 | starting from an empty map, the channel state and the handler after the loop are `Serve` of the initial state |

## Left out

- Terminal drawing is not modelled. This covers `Prompt::render`, `ChatLog::render`, `status_bar`, the screen setup in `ScreenState`, `move` and the colour pairs: they only draw.
- `connect_client` and `disconnect_client` are not performed, because they are network I/O. Running them is recorded as an `Invocation` with the command's action and argument. The address parsing is not modelled, and neither is the null socket dereferenced by `disconnect_client` on a client that never connected.
- The `socket` field of the client's `Client` is not modelled, because it is only used by the network commands.
- `std::isprint` is taken in the C locale, 32 to 126. Key codes above 255, which `isprint` does not define, are treated as not printable.
- ChatClient.Prompt: the cursor is an unbounded `nat`. The `unsigned` wrap-around of `cursor_++` after 2^32 characters is not modelled. `CursorColumn` does model the wrap-around of `x + cursor_`.
- Key codes are a sequence given to `MainLoop`, not read from `getch`. The non-blocking read is folded into that sequence, with the `ERR` value included.
- The mutex and the condition variable are not modelled, because each channel operation is one step taken under the lock. Interleavings of Senders on several threads are therefore not represented. Wake-ups are reported as the boolean result of `Drop`.
- Channel.Receiver.Recv: the wait in `recv`'s loop is an outcome, `WouldBlock`, that leaves the state unchanged. A caller retries instead of sleeping.
- Channel.Receiver.TryRecv: the value removed from the front is not returned. `try_recv` returns the result of `pop_front`, which is `void`, so it would not compile if it were ever instantiated. The model keeps the removal and loses the value.
- The Receiver's deleted copy operations and defaulted moves are not modelled. A Receiver is passed by reference.
- The server logs to `std::cout`, the greeting goes out through `write_some` (a partial write is not modelled), and `asio::read` fills a buffer. None of these is performed: a write is recorded as `Write`, and a read is given by its byte count.
- The bytes a client sends are not modelled, because the source ignores them.
- Exceptions from foreign calls are not modelled; the model records the call and goes on. `/connect` with an empty or malformed address throws out of the client's `main`, and a failed `write_some` or `remote_endpoint` throws in a detached server thread, which ends the process.
- `main` in `src/server.cpp` is not modelled. It accepts connections, copies the Sender into a thread per connection and detaches threads, which is threading and network I/O. One connection's task is `ChatServer.ClientTask` on its own copy of the Sender.
- ChatServer.Server: the loop runs for a given number of rounds, because the source loop never ends. A round where `recv` reports Closed or a wait dispatches nothing, so the busy loop while the count is 0 is a run of idle rounds.
