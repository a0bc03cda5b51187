# SSH welcome server and TUI: session registry, plain router, output bridge, key handling

This project models the sequential core of a small SSH demo server and of its terminal welcome app. Dafny proves properties of the model.

- **Session registry** (`Server`). Every connection handler is a clone of the server. It shares one client table, which maps a handler id to `(channel, handle, app)`. `new_client` hands out ids by copying the counter and then incrementing it. `auth_publickey` accepts every key, records it and stores the user name as the route. `channel_open_session` registers a fresh app under the handler's id and overwrites any earlier entry. `shell_request` serves the registered app and sends its content; with no entry it answers "Session not found." and closes the channel. `data` treats `q`, ETX and EOT as quit tokens: it says goodbye, evicts the entry and closes the channel. Dropping a handler evicts its id. Each callback is one atomic step.
- **Plain router** (`PlainApp`). `serve(route)` sets `content` to a fixed message that depends on the route alone. `"hello"` gets the greeting. Every other route gets the discord invite, including an absent or unknown one.
- **Output bridge** (`Terminal`). `write` appends to a byte sink. `flush` hands a copy of the sink to the forwarding task as one batch and clears the sink. If the task's receiver is gone, `flush` fails with a broken pipe and keeps the sink. The forwarding task passes batches to the transport handle in the order they were flushed.
- **TUI key handling** (`TuiApp`). `on_key_event` keeps a sliding window of the last typed characters. The eviction test uses the UTF-8 byte length `String::len` and removes one character per key, so the window keeps at most three characters, which may be more than three bytes. The window reading `"200"` stops the app. `d` or `D` latches `show_link`.

Each source object that updates fields in place is a class. `PlainApp.App`, `TuiApp.App` and `Server.SshServer` keep the source's fields; the shared `Arc` fields of `SshServer` become references to one `ClientTable` and one `AuthLog`. `Terminal.TerminalHandle` keeps `sink` and replaces the `sender` with the channel's contents (`queue`) and whether its receiver is still alive (`receiverAlive`). The `handle` and `channel` that the source moves into the spawned forwarding task are stored as constant fields of the class, so `Forward` can stand for that task. Pure step functions specify what the class methods do (`State() == OnKey(old(State()), key.code)`, `(State(), r) == FlushStep(old(State()))`). The lemmas about those functions carry the multi-step properties.

The transport library's `Session`/`Handle` is abstracted as the `Transport.Session` class. It logs every `(channel, bytes)` write, every channel-success reply and every closed channel. An operation on a channel the transport does not have open fails and changes nothing. The handlers propagate that failure with `?`, so a failed send skips the steps after it.

## Model

| member | source | states |
|---|---|---|
| `PlainApp.RouteMessage` | ssh-server/src/ssh/app.rs:26-32 | route `Some("hello")` gives the greeting; every other route (absent, `"discord"`, unknown) gives the discord message; every result is non-empty and ends in CR LF |
| `PlainApp.DefaultIsDiscord` | ssh-server/src/ssh/app.rs:11-24 | the fallback message is character-for-character the discord message |
| `PlainApp.HelloWellFormed` | ssh-server/src/ssh/app.rs:17 | the greeting is non-empty and ends in CR LF |
| `PlainApp.DiscordWellFormed` | ssh-server/src/ssh/app.rs:22 | the discord message is non-empty and ends in CR LF |
| `PlainApp.App.Start` | ssh-server/src/ssh/app.rs:7-9 | a new app has empty content |
| `PlainApp.App.Default` | ssh-server/src/ssh/app.rs:11-14 | content becomes the default message |
| `PlainApp.App.HelloWorld` | ssh-server/src/ssh/app.rs:16-19 | content becomes the greeting |
| `PlainApp.App.DiscordLogin` | ssh-server/src/ssh/app.rs:21-24 | content becomes the discord message |
| `PlainApp.App.Serve` | ssh-server/src/ssh/app.rs:26-32 | content becomes `RouteMessage(route)`; the old content plays no part, so serving a route twice equals serving it once |
| `Terminal.WriteNeverSends` | ssh-server/src/ssh/terminal.rs:24-27 | a write returns `Ok(len)`, appends the buffer to the sink and queues nothing |
| `Terminal.WritesAccumulate` | ssh-server/src/ssh/terminal.rs:24-27 | a run of writes extends the sink by their concatenation, in order, and queues nothing |
| `Terminal.WritesThenFlush` | ssh-server/src/ssh/terminal.rs:24-35 | writes `w1..wn` and then a live flush queue exactly one batch, the old sink followed by `w1 ++ ... ++ wn`, and leave the sink empty |
| `Terminal.FlushQueuesSink` | ssh-server/src/ssh/terminal.rs:29-35 | a live flush returns `Ok`, queues the sink as it is (an empty sink gives an empty batch) and clears it |
| `Terminal.FlushBrokenPipe` | ssh-server/src/ssh/terminal.rs:30-32 | with the receiver gone a flush returns `BrokenPipe` and leaves the sink and the queue unchanged |
| `Terminal.TerminalHandle.Start` | ssh-server/src/ssh/terminal.rs:12-20 | empty sink, empty channel, live receiver, bound to the given handle and channel |
| `Terminal.TerminalHandle.Write` | ssh-server/src/ssh/terminal.rs:24-27 | the new state and result are those of `WriteStep` |
| `Terminal.TerminalHandle.Flush` | ssh-server/src/ssh/terminal.rs:29-35 | the new state and result are those of `FlushStep` |
| `Terminal.TerminalHandle.Forward` | ssh-server/src/ssh/terminal.rs:14-18 | the receive loop hands every queued batch to the handle's channel, in flush order, ignoring each send's result; the sink is untouched |
| `Terminal.TerminalHandle.ReceiverDropped` | ssh-server/src/ssh/terminal.rs:13-18 | once the receiving task is gone, queued batches are discarded and later flushes fail |
| `TuiApp.SlideWindow` | tui-app/src/app.rs:90-94 | for any character, a window of at most three characters stays at most three long and is the old window plus the key with at most its oldest character evicted |
| `TuiApp.SlideAscii` | tui-app/src/app.rs:90-94 | for ASCII text the window is the last `min(3, len + 1)` characters of the old window plus the key |
| `TuiApp.NonCharKeyIgnored` | tui-app/src/app.rs:89 | a non-character key leaves all three fields unchanged |
| `TuiApp.KeyRunning` | tui-app/src/app.rs:96-98 | a key never sets `running`; a character key clears it exactly when the updated window is `"200"` |
| `TuiApp.KeyShowLink` | tui-app/src/app.rs:90-104 | afterwards `show_link` holds iff it held before or the key is `d`/`D`; `d`/`D` also enter the window |
| `TuiApp.FeedNeverResumes` | tui-app/src/app.rs:96-98 | no key sequence makes a stopped app run again |
| `TuiApp.FeedShowLinkLatched` | tui-app/src/app.rs:100-104 | once shown the link stays shown; any `d` or `D` in a key sequence shows it |
| `TuiApp.FeedWindowBound` | tui-app/src/app.rs:90-94 | after any key sequence the window holds at most three characters |
| `TuiApp.FeedWindowAscii` | tui-app/src/app.rs:89-94 | after any ASCII key sequence the window is exactly the last three characters typed (it slides, it never resets) |
| `TuiApp.SlideExtendsSuffix` | tui-app/src/app.rs:90-94 | an ASCII key extends an ASCII tail of at most two characters; eviction never cuts into it |
| `TuiApp.SlideShortAscii` | tui-app/src/app.rs:90-94 | an ASCII window of at most two characters takes the next ASCII key without eviction |
| `TuiApp.SlideKeepsTail` | tui-app/src/app.rs:90-94 | the last `k` characters of window-plus-key survive the slide when the old window already held `k` characters |
| `TuiApp.WindowCanExceedThreeBytes` | tui-app/src/app.rs:90-94 | eviction bounds characters, not bytes: "abc" then `é` leaves "bcé", four bytes long |
| `TuiApp.TypingExitCommand` | tui-app/src/app.rs:90-96 | typing `2`, `0`, `0` into any window of at most three characters (ASCII or not) yields `"200"` |
| `TuiApp.ExitAfter200` | tui-app/src/app.rs:89-98 | whatever keys came before, typing `2`, `0`, `0` stops the app |
| `TuiApp.SlidingWindowExample` | tui-app/src/app.rs:90-98 | `1`,`2`,`0`,`0` stops a running app, as `2`,`0`,`0` does |
| `TuiApp.NoExitWithout200` | tui-app/src/app.rs:90-98 | `1`,`2`,`0` leaves a running app running |
| `TuiApp.App.New` | tui-app/src/app.rs:13-23 | `App::new`/`Default`: empty buffer, `running` false, `show_link` false |
| `TuiApp.App.OnKeyEvent` | tui-app/src/app.rs:88-106 | the new fields are `OnKey(old fields, key.code)`, and the window stays at most three characters |
| `Server.QuitTokens` | ssh-server/src/ssh/server.rs:142-143 | every quit token (`q`, ETX, EOT) is a single byte, so empty or longer input never quits |
| `Server.RegisterIsolated` | ssh-server/src/ssh/server.rs:84-87 | registering an id sets its entry whatever was there before, adds only that key and leaves other ids' entries alone |
| `Server.EvictIsolated` | ssh-server/src/ssh/server.rs:143-169 | evicting an id removes exactly that key; evicting an absent id changes nothing; evicting twice equals evicting once |
| `Server.EvictAfterRegister` | ssh-server/src/ssh/server.rs:84-146 | registering and then evicting an id leaves the table as evicting alone would |
| `Server.AuthLog.RecordKey` | ssh-server/src/ssh/server.rs:70 | an attempt is appended once, at the end of the log |
| `Server.SshServer.New` | ssh-server/src/ssh/server.rs:23-30 | fresh empty table and log, id 0, no protocol |
| `Server.SshServer.CloneOf` | ssh-server/src/ssh/server.rs:14-20 | a clone shares the table and the log and copies id and protocol |
| `Server.SshServer.NewClient` | ssh-server/src/ssh/server.rs:44-48 | the new handler carries the current id; the server's id goes up by one, so successive handlers get 0, 1, 2, ... |
| `Server.SshServer.AuthPublickey` | ssh-server/src/ssh/server.rs:57-73 | always `Ok(Accept)`, protocol becomes `Some(username)`, exactly one attempt recorded |
| `Server.SshServer.ChannelOpenSession` | ssh-server/src/ssh/server.rs:75-93 | `Ok(true)`; this id maps to the channel, the session's handle and a fresh empty app, replacing any earlier entry, other ids unchanged |
| `Server.SshServer.PtyRequest` | ssh-server/src/ssh/server.rs:95-111 | acknowledges the channel, or fails if the transport rejects it |
| `Server.SshServer.ShellRequest` | ssh-server/src/ssh/server.rs:113-132 | with an entry: its app's content becomes `RouteMessage(protocol)` and is sent as UTF-8, then success; without: "Session not found.\n" is sent and the channel closed; no other app changes and the table keeps its keys |
| `Server.SshServer.Data` | ssh-server/src/ssh/server.rs:134-158 | a quit token sends "Goodbye!\n", evicts this id and closes the channel; any other input, empty included, changes nothing; a failed send stops before the eviction |
| `Server.SshServer.Drop` | ssh-server/src/ssh/server.rs:161-169 | this handler's id is evicted; other entries are untouched |

## Left out

- `run`, `render` and `handle_crossterm_events` in `tui-app/src/app.rs` are left out. They are the blocking terminal event loop, widget layout and event reading. Only `on_key_event` is modelled. `KeyEvent` keeps only its code and kind, because the modifiers and state are never read.
- `handle_session_error` and all logging are left out. They only print.
- `eval_key` and `all_entries` are left out: their results are only logged. The authentication log's source file is not part of this model. `record_key` is modelled as appending one attempt to an append-only log; the log's own implementation is not modelled.
- Concurrency is left out. The tokio mutex, the spawned forwarding task and the detached cleanup task in `Drop` each become one atomic sequential step or a FIFO queue. Races such as the unsynchronised `id += 1` are not modelled.
- `Server.SshServer.NewClient`: `id` is a mathematical integer, so the `usize` overflow of `self.id += 1` is not modelled.
- `Terminal.TerminalHandle.Forward`: the receive loop is run until the queue is empty rather than forever. Its end when all senders are dropped has no observable effect in the model.
- `Terminal.TerminalHandle.ReceiverDropped`: the model lets the receiver go away at any moment. In the source the receive loop ends only when every sender is dropped. The handle holds the only sender, and a failed send to the transport is ignored (`let _ =`). So while a handle exists, `flush` returns `BrokenPipe` only after a runtime shutdown or an aborted task.
- Key generation and loading, the discord HTTP client, process bootstrap, widget and brand styling are left out. They are I/O, network or UI with no logic of their own.
- The transport library's behaviour is abstracted. Its operations are modelled as failing exactly when the channel is not open in the session. Strings become bytes by UTF-8 encoding; the wire protocol's own framing and encryption are not modelled.
