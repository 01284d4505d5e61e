# Tray window core: log sink, console toggling and the window procedure

This project models the part of the tray application that keeps logs and
shows or hides them on request.

- **`Logs`** (`src/logs.rs`) covers three things:
  - the `BufferSink`, an append-only byte buffer shared by every clone;
  - its `replay`, which writes a header line, the buffer and a footer line
    to a writer, each with `write_all` and `?`;
  - the `LogDisplayState` enum, and `init_console`, which runs at start-up.
- **`WindowProc`** (`src/window_proc.rs`) covers:
  - the decoding of window messages;
  - `window_proc_inner`'s handling of tray clicks, taskbar re-creation, menu
    commands, close and destroy;
  - `show_context_menu`;
  - the outer `window_proc`, which turns every error into the answer 0 after
    an attempt to write an error file.
- **`Platform`** stands for the outside world. Every external call (console
  control, the tray crate, the Win32 menu and window calls, the worker
  launch) is an `Api` value. Calls are recorded in order in an `Os` object.
  `Env` answers them for one message: the set of calls that fail, and what
  the default window procedure returns.
- **`Io`** provides `Result` and bytes. It also provides a `Writer`, which
  stands for standard error and answers each `write_all` from a script: it
  accepts, or it fails after a partial write.

The meaning of one message is given as a value twice over:

- `Handle` is the meaning for `window_proc_inner`;
- `WindowProcSpec` is the meaning for `window_proc`.

`ReplayInto` is the same kind of value for `replay`, and `InitConsoleEffect`
for `init_console`. The classes `Dispatcher` and `BufferSink` run the same
steps against `Os` and `Writer`. Their methods are proved to produce exactly
those values. The lemmas state what the code promises.

The code and its description differ in four places. The model follows the
code in each:

- **Hide Logs propagates a failed detach.** `console_detach()?` propagates
  the error and leaves the display state unchanged. The detach is not
  best effort.
- **The display state always starts detached.** It starts as
  `DetachedFromConsole` even when a console was inherited, so the first menu
  offers "Show Logs".
- **Show Logs does not reattach the Ctrl-C handler.** It creates the console
  and replays the logs, and does not attach the handler again.
- **Two names differ between the files.** `window_proc.rs` imports
  `LOGS_CONTEXT_MENU_BUTTON` / `LogsContextMenuButton { HideLogs, ShowLogs }`,
  which `logs.rs` does not define. The model uses the one two-valued state
  that `logs.rs` defines, read as follows:
  - `HideLogs` is `AttachedToConsole`;
  - `ShowLogs` is `DetachedFromConsole`.

  Likewise, the `LOG_BUFFER` that `window_proc.rs` replays is imported from
  the utility crate. The model takes it to be the `BufferSink` of `logs.rs`.

Message numbers, command ids and captions are those of the source:

- `WM_COMMAND` 0x0111, `WM_CLOSE` 0x0010, `WM_DESTROY` 0x0002,
  `WM_LBUTTONUP` 0x0202, `WM_RBUTTONUP` 0x0205, `WM_CONTEXTMENU` 0x007B;
- ids 1 to 4 for Show Logs, Hide Logs, Launch Bevy and Exit.

The tray crate's two run-time message numbers are a parameter,
`CustomMessages`.

## Model

| member | source | states |
|---|---|---|
| Io.WriteAllEffect | src/logs.rs:26-28 | `write_all` succeeds exactly when the slice is empty or the writer accepts. On success all bytes are written; on failure a strict prefix is written. A non-empty write uses up one answer of the writer; an empty one uses none. |
| Io.Writer.WriteAll | src/logs.rs:26-28 | One `write_all` on the destination: its outcome, the bytes appended to the output, and the answers left, as `WriteAllEffect` gives them. |
| Platform.RunCallsStopsAtFirstFailure | src/window_proc.rs:146-168 | A chain of calls each propagated with `?` makes a prefix of its calls. It succeeds exactly when every call succeeds, and then makes all of them. Otherwise it stops at a failing call, which all earlier calls passed, and that failure is the error. |
| Logs.PreambleIsTheHeaderLine | src/logs.rs:25 | The header bytes are the ASCII encoding of "=== Previous Logs ===" followed by a newline. |
| Logs.PostambleIsTheFooterLine | src/logs.rs:29 | The footer bytes are the ASCII encoding of "=== End of Previous Logs ===" followed by a newline. |
| Logs.WriteFramed | src/logs.rs:25-29 | Writing header, body and footer in turn with `?` always outputs a prefix of header + body + footer. It succeeds exactly when all of it was output. |
| Logs.ReplayInto | src/logs.rs:23-31 | What `replay` writes is always a prefix of header + buffer + footer. It succeeds exactly when all of that was written. |
| Logs.ReplayFailsOnlyWhenWriterFails | src/logs.rs:23-31 | A replay succeeds if and only if the writer accepts each of its non-empty writes: three, or two when the buffer is empty. |
| Logs.ReplayOfEmptyBuffer | src/logs.rs:26-28 | With an accepting writer, an empty buffer replays as just the two lines. |
| Logs.ReplayStopsAtFailedPreamble | src/logs.rs:25 | When the header write fails, the replay fails at that stage. Less than the header was written, and no further write is attempted. |
| Logs.AfterWritesAppends | src/logs.rs:46-50 | Any sequence of writes leaves the earlier contents, followed by every write's bytes in order. |
| Logs.ReplayContainsEveryWrite | src/logs.rs:17-31 | After any writes, a successful replay contains all of them, contiguous and in order, right after the header and the earlier contents. |
| Logs.BufferSink.Default | src/logs.rs:18-21 | A default sink has a fresh, empty buffer. |
| Logs.BufferSink.Share | src/logs.rs:18-20 | A clone refers to the same buffer. |
| Logs.BufferSink.Write | src/logs.rs:46-50 | `write` appends the slice verbatim, keeps the earlier bytes, and reports the whole length as written. It never fails. |
| Logs.BufferSink.Flush | src/logs.rs:52-54 | `flush` always succeeds. |
| Logs.BufferSink.MakeWriter | src/logs.rs:56-61 | `make_writer` returns a new sink sharing this sink's buffer. |
| Logs.RecordEvent | src/logs.rs:45-61 | A record written through a writer that `make_writer` returned lands in the original sink's buffer. |
| Logs.BufferSink.Replay | src/logs.rs:23-31 | `replay` leaves the buffer unchanged. Its result, the writer's output and the writer's remaining answers are those `ReplayInto` gives. |
| Logs.BufferSink.WriteFramedTo | src/logs.rs:25-29 | The three `write_all` calls with `?`, as `WriteFramed` gives them. |
| Logs.InitConsoleEffect | src/logs.rs:80-88 | `init_console` detaches exactly when no console is inherited and ignores a failed detach. Its last call attaches the Ctrl-C handler, and it fails exactly when that call fails. |
| Logs.InitConsole | src/logs.rs:80-88 | The calls made and the result are those `InitConsoleEffect` gives. |
| WindowProc.LowBits32 | src/window_proc.rs:64 | `lparam.0 as u32` agrees with `lparam` modulo 2^32. |
| WindowProc.DecodeForwardsExactlyTheUnknown | src/window_proc.rs:62-142 | A message reaches the default handler, with its parameters unmodified, if and only if no arm of the match claims it. |
| WindowProc.TrayEventIgnoresHighBits | src/window_proc.rs:64-73 | The tray event depends only on the low 32 bits of `lparam`. |
| WindowProc.MenuHasOneToggle | src/window_proc.rs:146-160 | The menu has five entries, and exactly one of them, the first, is a visibility toggle. It is "Hide Logs" exactly when attached and "Show Logs" exactly when detached. Then come a separator, "Launch Bevy", a separator and "Exit". |
| WindowProc.MenuIdsAreDistinct | src/window_proc.rs:22-25 | The menu items carry distinct command ids. |
| WindowProc.InitialMenuOffersShowLogs | src/logs.rs:73-78 | At start-up the menu offers "Show Logs". |
| WindowProc.MenuItemCallsAppendTheMenu | src/window_proc.rs:149-160 | The `AppendMenuW` calls add the menu's entries in order, one per position. |
| WindowProc.MenuRunInThreeParts | src/window_proc.rs:146-168 | Showing the menu runs the creation, then the entries, then the popup calls. Each part runs only if the previous one succeeded. |
| WindowProc.FailedMenuIsNotDestroyed | src/window_proc.rs:146-168 | A menu that was created but failed before `DestroyMenu` is never destroyed. |
| WindowProc.ShowLogsTransition | src/window_proc.rs:84-101 | Show Logs ignores a failed detach. A failed create is the error and keeps the state. Once the console exists the state is attached, even when the replay then fails, and that replay failure is the error. |
| WindowProc.HideLogsTransition | src/window_proc.rs:102-118 | Hide Logs: a failed detach keeps the state and is the error; otherwise the state becomes detached. The Ctrl-C handler is attached if and only if the detach and the parent attach both succeeded. Hide Logs succeeds if and only if the detach succeeded and, when the parent console was attached, so did attaching the Ctrl-C handler. |
| WindowProc.TrayClicksSwallowFailures | src/window_proc.rs:63-76 | A left click launches the worker and reports success even when the launch fails. An unknown tray event does nothing. |
| WindowProc.MenuRequestShowsCurrentMenu | src/window_proc.rs:71-72 | A right click or a context-menu request makes a prefix of the current state's menu calls and keeps the state. It succeeds if and only if every menu call succeeds. |
| WindowProc.UnknownInputIsNotSwallowed | src/window_proc.rs:129-142 | An unknown command id does nothing and answers 0. An unknown message is forwarded, unmodified, to the default handler, whose answer is returned. |
| WindowProc.WrapperNeverPropagates | src/window_proc.rs:27-53 | `window_proc` keeps the handler's state change. It passes a success through unchanged. It turns an error into the answer 0, after one attempt to write the error file. |
| WindowProc.ShutdownMessages | src/window_proc.rs:124-141 | Exit sends close, which removes the tray icon and destroys the window. Destroy removes the icon and posts quit with code 0. None of them fails or changes the state. |
| WindowProc.LaunchCommand | src/window_proc.rs:119-123 | The Launch Bevy command propagates a launch failure, which the wrapper answers with 0, and keeps the state. |
| WindowProc.OnlyTogglesChangeState | src/window_proc.rs:62-143 | No message but the Show Logs and Hide Logs commands changes the display state. |
| WindowProc.ChosenToggleFlipsState | src/window_proc.rs:84-118 | Choosing the toggle the menu shows, when every call succeeds, moves to the other state. The next menu then shows the opposite toggle. |
| WindowProc.RunDependsOnlyOnToggles | src/window_proc.rs:62-143 | Over any sequence of messages, the display state is decided by the toggle commands alone. |
| WindowProc.Dispatcher.constructor | src/logs.rs:77-78 | The display state starts detached. |
| WindowProc.Dispatcher.ShowContextMenu | src/window_proc.rs:146-169 | The calls made and the result of `show_context_menu` are those of running the current state's menu calls with `?`. |
| WindowProc.Dispatcher.AppendMenuItems | src/window_proc.rs:149-160 | The toggle for the current state, then the fixed entries, each propagated with `?`. |
| WindowProc.Dispatcher.AppendFixedEntries | src/window_proc.rs:157-160 | The two separators, "Launch Bevy" and "Exit", each propagated with `?`. |
| WindowProc.Dispatcher.PopUpMenu | src/window_proc.rs:162-166 | Cursor position, foreground, track and destroy, each propagated with `?`. |
| WindowProc.Dispatcher.WindowProcInner | src/window_proc.rs:56-144 | The new state, the calls made and the result are those `Handle` gives. Standard error receives the replay exactly when Show Logs created a console, and is untouched otherwise. |
| WindowProc.Dispatcher.OnTrayCallback | src/window_proc.rs:63-76 | The tray-callback arm, as `Handle` gives it. The state is untouched. |
| WindowProc.Dispatcher.OnCommand | src/window_proc.rs:81-131 | The `WM_COMMAND` arm, as `Handle` gives it, including the synchronous re-entry for Exit. |
| WindowProc.Dispatcher.ShowLogs | src/window_proc.rs:84-101 | The Show Logs command, as `Handle` gives it. It also writes the replay to standard error when the console was created. |
| WindowProc.Dispatcher.HideLogs | src/window_proc.rs:102-118 | The Hide Logs command, as `Handle` gives it. |
| WindowProc.Dispatcher.WindowProc | src/window_proc.rs:27-53 | The new state, the calls made and the answer are those `WindowProcSpec` gives. |

## Left out

- Win32 handles, the window handle, the menu handle and the cursor point are not modelled. Each Win32 or tray call is only a named call that succeeds or fails.
- `TrackPopupMenu`'s choice of an item is not modelled. The chosen command arrives later, as a separate `WM_COMMAND` message.
- `DestroyWindow` delivers `WM_DESTROY` synchronously, and this nested delivery is not modelled. `Destroy` is modelled as a message of its own.
- In contrast, the synchronous `SendMessageW(WM_CLOSE)` of Exit is modelled, as a nested delivery.
- Mutexes, `Arc`, `LazyLock` and the poisoning `unwrap`s are not modelled. The model is single-threaded, and the buffer is a shared object.
- `Deref` and `DerefMut` are modelled as direct access to the sink's shared buffer.
- The `tracing` macros (`info!`, `debug!`, `error!`, `trace!`) are left out. They would append lines to the log buffer during handling, and the model does not record those lines.
- `init_tracing` is left out: the subscriber set-up and the filter are configuration of the tracing library.
- The error file's name, timestamp and contents (`chrono`, `std::fs::write`) are left out. The model records one `WriteErrorLog` call, whose failure is ignored as in the source.
- `is_inheriting_console()` becomes a parameter.
- `writeln!` is modelled as a single `write_all` of the whole line.
- A partial write is modelled only as the prefix that reached the writer, not as the individual `write` calls inside `write_all`.
- `launch_bevy`, `main.rs`, `main_tray.rs`, `main_bevy.rs` and `main_bevy_bootstrap.rs` are not part of this model.
- Each `Env` gives one answer per distinct call while one message is handled. Within one message, no call is made twice with the same arguments: the menu's `AppendMenuW` calls are told apart by their position.
- The nested delivery during Exit shares the outer message's `Env`.
