/**
 * The tray window's message handler of src/window_proc.rs: it decodes the
 * window messages, dispatches tray clicks and menu commands, drives console
 * creation and detachment, and keeps the menu's visibility toggle in step
 * with the log display state.
 *
 * `Handle` and `WindowProcSpec` give the meaning of one message as a value;
 * the `Dispatcher` class runs the same steps against the recorded outside
 * world and is proved to agree with them.
 */
module WindowProc {
  import opened Io
  import opened Platform
  import opened Logs

  // ---------------------------------------------------------------------
  // Message decoding

  const WM_DESTROY: u32 := 0x0002
  const WM_CLOSE: u32 := 0x0010
  const WM_CONTEXTMENU: u32 := 0x007B
  const WM_COMMAND: u32 := 0x0111
  const WM_LBUTTONUP: u32 := 0x0202
  const WM_RBUTTONUP: u32 := 0x0205

  /** The two message numbers the tray crate fixes at run time: its tray
      callback message and the shell's registered "taskbar created". */
  datatype CustomMessages = CustomMessages(trayCallback: u32, taskbarCreated: u32)

  /** What the tray icon reports in the low 32 bits of `lparam`. */
  datatype TrayEvent = LeftButtonUp | RightButtonUp | ContextMenu | UnknownTrayEvent(code: u32)

  datatype Message =
    | TrayCallback(event: TrayEvent)
    | TaskbarCreated
    | Command(id: usize)
    | Close
    | Destroy
    | Unhandled(message: u32, wparam: usize, lparam: isize)

  /** `lparam.0 as u32`: the low 32 bits of the two's-complement value. */
  function LowBits32(x: isize): (r: u32)
    ensures (x - r) % 0x1_0000_0000 == 0
  {
    x % 0x1_0000_0000
  }

  function TrayEventOf(code: u32): TrayEvent {
    if code == WM_LBUTTONUP then LeftButtonUp
    else if code == WM_RBUTTONUP then RightButtonUp
    else if code == WM_CONTEXTMENU then ContextMenu
    else UnknownTrayEvent(code)
  }

  /** The arms of `window_proc_inner`'s match, tried in order. */
  function Decode(ids: CustomMessages, message: u32, wparam: usize, lparam: isize): Message {
    if message == ids.trayCallback then TrayCallback(TrayEventOf(LowBits32(lparam)))
    else if message == ids.taskbarCreated then TaskbarCreated
    else if message == WM_COMMAND then Command(wparam)
    else if message == WM_CLOSE then Close
    else if message == WM_DESTROY then Destroy
    else Unhandled(message, wparam, lparam)
  }

  /** Every message the handler has no arm for is passed on, unmodified. */
  lemma DecodeForwardsExactlyTheUnknown(ids: CustomMessages, message: u32, wparam: usize, lparam: isize)
    ensures Decode(ids, message, wparam, lparam).Unhandled? <==>
      message != ids.trayCallback && message != ids.taskbarCreated &&
      message != WM_COMMAND && message != WM_CLOSE && message != WM_DESTROY
    ensures Decode(ids, message, wparam, lparam).Unhandled? ==>
      Decode(ids, message, wparam, lparam) == Unhandled(message, wparam, lparam)
  {
  }

  /** Only the low 32 bits of `lparam` select the tray event. */
  lemma TrayEventIgnoresHighBits(ids: CustomMessages, wparam: usize, a: isize, b: isize)
    requires (a - b) % 0x1_0000_0000 == 0
    ensures Decode(ids, ids.trayCallback, wparam, a) == Decode(ids, ids.trayCallback, wparam, b)
  {
    var ra, rb := LowBits32(a), LowBits32(b);
    assert (ra - rb) % 0x1_0000_0000 == 0;
  }

  // ---------------------------------------------------------------------
  // The context menu

  const ID_SHOW_LOGS: nat := 1
  const ID_HIDE_LOGS: nat := 2
  const ID_LAUNCH_BEVY: nat := 3
  const ID_EXIT: nat := 4

  /** The visibility toggle offered in a state. */
  function ToggleItem(s: LogDisplayState): MenuEntry {
    match s
    case AttachedToConsole => Item(ID_HIDE_LOGS, "Hide Logs")
    case DetachedFromConsole => Item(ID_SHOW_LOGS, "Show Logs")
  }

  predicate IsToggle(e: MenuEntry) {
    e == Item(ID_SHOW_LOGS, "Show Logs") || e == Item(ID_HIDE_LOGS, "Hide Logs")
  }

  /** The popup menu `show_context_menu` builds, top to bottom. */
  function MenuFor(s: LogDisplayState): seq<MenuEntry> {
    [ToggleItem(s), Separator, Item(ID_LAUNCH_BEVY, "Launch Bevy"), Separator, Item(ID_EXIT, "Exit")]
  }

  /** The menu has exactly one visibility toggle, first, and it is the one
      the state prescribes: "Hide Logs" (id 2) exactly when attached and
      "Show Logs" (id 1) exactly when detached; then a separator, "Launch
      Bevy" (id 3), a separator and "Exit" (id 4). */
  lemma MenuHasOneToggle(s: LogDisplayState)
    ensures |MenuFor(s)| == 5
    ensures forall i | 0 <= i < |MenuFor(s)| :: IsToggle(MenuFor(s)[i]) <==> i == 0
    ensures MenuFor(s)[0] == Item(ID_HIDE_LOGS, "Hide Logs") <==> s == AttachedToConsole
    ensures MenuFor(s)[0] == Item(ID_SHOW_LOGS, "Show Logs") <==> s == DetachedFromConsole
    ensures MenuFor(s)[1..] ==
      [Separator, Item(ID_LAUNCH_BEVY, "Launch Bevy"), Separator, Item(ID_EXIT, "Exit")]
  {
  }

  /** The menu's items carry distinct command ids. */
  lemma MenuIdsAreDistinct(s: LogDisplayState)
    ensures forall i, j | 0 <= i < j < |MenuFor(s)| ::
      MenuFor(s)[i].Item? && MenuFor(s)[j].Item? ==> MenuFor(s)[i].id != MenuFor(s)[j].id
  {
  }

  /** At start-up the menu offers "Show Logs", even when the process was
      started from a console: showing always creates a new console. */
  lemma InitialMenuOffersShowLogs()
    ensures MenuFor(InitialDisplayState)[0] == Item(ID_SHOW_LOGS, "Show Logs")
  {
  }

  /** The `AppendMenuW` calls that add the entries below the toggle. */
  const FixedEntryCalls: seq<Api> :=
    [AppendMenu(1, Separator), AppendMenu(2, Item(ID_LAUNCH_BEVY, "Launch Bevy")),
     AppendMenu(3, Separator), AppendMenu(4, Item(ID_EXIT, "Exit"))]

  /** The `AppendMenuW` calls that add the entries, top to bottom. */
  function MenuItemCalls(s: LogDisplayState): seq<Api> {
    [AppendMenu(0, ToggleItem(s))] + FixedEntryCalls
  }

  /** The entries are appended one at a time, in menu order, each at its
      own position. */
  lemma MenuItemCallsAppendTheMenu(s: LogDisplayState)
    ensures |MenuItemCalls(s)| == |MenuFor(s)|
    ensures forall k | 0 <= k < |MenuFor(s)| :: MenuItemCalls(s)[k] == AppendMenu(k, MenuFor(s)[k])
  {
  }

  /** The calls that show the built menu at the cursor and then free it. */
  const PopupCalls: seq<Api> := [GetCursorPos, SetForegroundWindow, TrackPopupMenu, DestroyMenu]

  /** The calls `show_context_menu` makes, each propagated with `?`. */
  function MenuCalls(s: LogDisplayState): seq<Api> {
    [CreatePopupMenu] + MenuItemCalls(s) + PopupCalls
  }

  /** Building and showing the menu is three runs in a row: the creation,
      the entries and the popup, each only after the previous succeeded. */
  lemma MenuRunInThreeParts(s: LogDisplayState, failing: set<Api>)
    ensures RunCalls(MenuCalls(s), failing) ==
      if CreatePopupMenu in failing then Attempt([CreatePopupMenu], Err(CallFailed(CreatePopupMenu)))
      else
        var items := RunCalls(MenuItemCalls(s), failing);
        if items.result.Err? then Attempt([CreatePopupMenu] + items.calls, items.result)
        else
          var popup := RunCalls(PopupCalls, failing);
          Attempt([CreatePopupMenu] + items.calls + popup.calls, popup.result)
  {
    var items := MenuItemCalls(s);
    assert MenuCalls(s) == [CreatePopupMenu] + (items + PopupCalls);
    RunCallsCons(CreatePopupMenu, items + PopupCalls, failing);
    RunCallsAppend(items, PopupCalls, failing);
    RunCallsStopsAtFirstFailure(items, failing);
  }

  /** A menu that is created but then fails to be built or shown is never
      destroyed: its handle is leaked. */
  lemma FailedMenuIsNotDestroyed(s: LogDisplayState, failing: set<Api>)
    requires CreatePopupMenu !in failing
    requires RunCalls(MenuCalls(s), failing).result.Err?
    requires RunCalls(MenuCalls(s), failing).result.error != CallFailed(DestroyMenu)
    ensures CreatePopupMenu in RunCalls(MenuCalls(s), failing).calls
    ensures DestroyMenu !in RunCalls(MenuCalls(s), failing).calls
  {
    RunCallsStopsAtFirstFailure(MenuCalls(s), failing);
    var a := RunCalls(MenuCalls(s), failing);
    var steps := MenuCalls(s);
    assert a.calls[|a.calls| - 1] != DestroyMenu;
    assert |a.calls| < |steps|;
    forall k | 0 <= k < |a.calls| ensures a.calls[k] != DestroyMenu {
      assert a.calls[k] == steps[k];
    }
  }

  // ---------------------------------------------------------------------
  // One message, as a value

  /** What handling one message does: the new display state, the calls
      made (in order), and the handler's result. */
  datatype Transition = Transition(next: LogDisplayState, calls: seq<Api>, result: Result<int, Report>)

  /** What one delivery through the outer wrapper does: never an error. */
  datatype Delivery = Delivery(next: LogDisplayState, calls: seq<Api>, lresult: int)

  /** Only the Exit command re-enters the window procedure. */
  function Rank(m: Message): nat {
    if m.Command? then 1 else 0
  }

  /** A single call propagated with `?`, the handler's result 0 otherwise. */
  function Guarded(s: LogDisplayState, api: Api, env: Env): Transition {
    Transition(s, [api], if api !in env.failing then Ok(0) else Err(CallFailed(api)))
  }

  /**
   * `window_proc_inner`. `replay` is what replaying the log buffer to
   * standard error would give; it matters only once a console was created.
   */
  function Handle(s: LogDisplayState, m: Message, env: Env, replay: Result<(), ReplayStage>): Transition
    decreases Rank(m), 0
  {
    match m
    case TrayCallback(event) =>
      (match event
       case LeftButtonUp => Transition(s, [LaunchBevy], Ok(0))
       case RightButtonUp =>
         var a := RunCalls(MenuCalls(s), env.failing);
         Transition(s, a.calls, if a.result.Ok? then Ok(0) else Err(a.result.error))
       case ContextMenu =>
         var a := RunCalls(MenuCalls(s), env.failing);
         Transition(s, a.calls, if a.result.Ok? then Ok(0) else Err(a.result.error))
       case UnknownTrayEvent(_) => Transition(s, [], Ok(0)))
    case TaskbarCreated => Guarded(s, ReAddTrayIcon, env)
    case Command(id) =>
      if id == ID_SHOW_LOGS then
        if ConsoleCreate in env.failing then
          Transition(s, [ConsoleDetach, ConsoleCreate], Err(CallFailed(ConsoleCreate)))
        else
          Transition(AttachedToConsole, [ConsoleDetach, ConsoleCreate],
                     if replay.Ok? then Ok(0) else Err(ReplayFailed(replay.error)))
      else if id == ID_HIDE_LOGS then
        if ConsoleDetach in env.failing then
          Transition(s, [ConsoleDetach], Err(CallFailed(ConsoleDetach)))
        else if ConsoleAttachParent in env.failing then
          Transition(DetachedFromConsole, [ConsoleDetach, ConsoleAttachParent], Ok(0))
        else
          var t := Guarded(DetachedFromConsole, AttachCtrlCHandler, env);
          Transition(t.next, [ConsoleDetach, ConsoleAttachParent] + t.calls, t.result)
      else if id == ID_LAUNCH_BEVY then
        Guarded(s, LaunchBevy, env)
      else if id == ID_EXIT then
        var d := WindowProcSpec(s, Close, env, replay);
        Transition(d.next, [SendCloseMessage] + d.calls, Ok(d.lresult))
      else
        Transition(s, [], Ok(0))
    case Close => Transition(s, [DeleteTrayIcon, DestroyWindow], Ok(0))
    case Destroy => Transition(s, [DeleteTrayIcon, PostQuitMessage(0)], Ok(0))
    case Unhandled(message, wparam, lparam) => Transition(s, [DefWindowProc(message, wparam, lparam)], Ok(env.defaultResult))
  }

  /** `window_proc`: a failed handler is answered with 0 after an attempt to
      write the error to a timestamped file. */
  function WindowProcSpec(s: LogDisplayState, m: Message, env: Env, replay: Result<(), ReplayStage>): Delivery
    decreases Rank(m), 1
  {
    var t := Handle(s, m, env, replay);
    match t.result
    case Ok(v) => Delivery(t.next, t.calls, v)
    case Err(_) => Delivery(t.next, t.calls + [WriteErrorLog], 0)
  }

  // ---------------------------------------------------------------------
  // Properties of one message

  /** Show Logs: a failed detach is ignored; a failed console creation
      leaves the state as it was; once the console exists the state is
      attached, even when the replay that follows fails, and that failure
      is the handler's error. */
  lemma ShowLogsTransition(s: LogDisplayState, env: Env, replay: Result<(), ReplayStage>)
    ensures Handle(s, Command(ID_SHOW_LOGS), env, replay).next ==
      (if ConsoleCreate !in env.failing then AttachedToConsole else s)
    ensures Handle(s, Command(ID_SHOW_LOGS), env, replay).result ==
      (if ConsoleCreate in env.failing then Err(CallFailed(ConsoleCreate))
       else if replay.Err? then Err(ReplayFailed(replay.error))
       else Ok(0))
    ensures Handle(s, Command(ID_SHOW_LOGS), env, replay).calls[..1] == [ConsoleDetach]
  {
  }

  /** Hide Logs: a failed detach leaves the state as it was and is the
      handler's error; a successful one makes the state detached whatever
      happens next; the Ctrl-C handler is attached exactly when attaching to
      the parent console succeeded. */
  lemma HideLogsTransition(s: LogDisplayState, env: Env, replay: Result<(), ReplayStage>)
    ensures Handle(s, Command(ID_HIDE_LOGS), env, replay).next ==
      (if ConsoleDetach !in env.failing then DetachedFromConsole else s)
    ensures AttachCtrlCHandler in Handle(s, Command(ID_HIDE_LOGS), env, replay).calls <==>
      ConsoleDetach !in env.failing && ConsoleAttachParent !in env.failing
    ensures Handle(s, Command(ID_HIDE_LOGS), env, replay).result.Ok? <==>
      ConsoleDetach !in env.failing &&
      (ConsoleAttachParent !in env.failing ==> AttachCtrlCHandler !in env.failing)
  {
  }

  /** A left click launches the worker and swallows a launch failure;
      an unknown tray event does nothing; neither touches the state. */
  lemma TrayClicksSwallowFailures(s: LogDisplayState, env: Env, replay: Result<(), ReplayStage>, code: u32)
    ensures Handle(s, TrayCallback(LeftButtonUp), env, replay) == Transition(s, [LaunchBevy], Ok(0))
    ensures Handle(s, TrayCallback(UnknownTrayEvent(code)), env, replay) == Transition(s, [], Ok(0))
  {
  }

  /** A right click or context-menu request shows the menu for the current
      state, and fails exactly when building or showing it fails. */
  lemma MenuRequestShowsCurrentMenu(s: LogDisplayState, env: Env, replay: Result<(), ReplayStage>, e: TrayEvent)
    requires e == RightButtonUp || e == ContextMenu
    ensures Handle(s, TrayCallback(e), env, replay).next == s
    ensures Handle(s, TrayCallback(e), env, replay).result.Ok? <==>
      forall i | 0 <= i < |MenuCalls(s)| :: MenuCalls(s)[i] !in env.failing
    ensures Handle(s, TrayCallback(e), env, replay).calls <= MenuCalls(s)
  {
    RunCallsStopsAtFirstFailure(MenuCalls(s), env.failing);
  }

  /** An unknown command id does nothing; an unknown message is forwarded,
      unmodified, to the default handler, whose answer is returned. */
  lemma UnknownInputIsNotSwallowed(s: LogDisplayState, env: Env, replay: Result<(), ReplayStage>, id: usize, message: u32, wparam: usize, lparam: isize)
    requires !(1 <= id <= 4)
    ensures WindowProcSpec(s, Command(id), env, replay) == Delivery(s, [], 0)
    ensures WindowProcSpec(s, Unhandled(message, wparam, lparam), env, replay) ==
      Delivery(s, [DefWindowProc(message, wparam, lparam)], env.defaultResult)
  {
  }

  /** The outer wrapper never fails: an error becomes the answer 0, after
      an attempt to write the error file; a success is passed through. */
  lemma WrapperNeverPropagates(s: LogDisplayState, m: Message, env: Env, replay: Result<(), ReplayStage>)
    ensures var t := Handle(s, m, env, replay);
      var d := WindowProcSpec(s, m, env, replay);
      d.next == t.next &&
      (t.result.Ok? ==> d.lresult == t.result.value && d.calls == t.calls) &&
      (t.result.Err? ==> d.lresult == 0 && d.calls == t.calls + [WriteErrorLog])
  {
  }

  /** Exit closes the window through the close handler; close removes the
      tray icon and destroys the window; destroy removes the tray icon and
      posts quit with code 0. None of them fails or changes the state. */
  lemma ShutdownMessages(s: LogDisplayState, env: Env, replay: Result<(), ReplayStage>)
    ensures WindowProcSpec(s, Command(ID_EXIT), env, replay) ==
      Delivery(s, [SendCloseMessage, DeleteTrayIcon, DestroyWindow], 0)
    ensures WindowProcSpec(s, Close, env, replay) == Delivery(s, [DeleteTrayIcon, DestroyWindow], 0)
    ensures WindowProcSpec(s, Destroy, env, replay) == Delivery(s, [DeleteTrayIcon, PostQuitMessage(0)], 0)
  {
  }

  /** Launching through the menu propagates a launch failure (then written
      off by the wrapper), and never changes the state. */
  lemma LaunchCommand(s: LogDisplayState, env: Env, replay: Result<(), ReplayStage>)
    ensures Handle(s, Command(ID_LAUNCH_BEVY), env, replay) ==
      Transition(s, [LaunchBevy], if LaunchBevy !in env.failing then Ok(0) else Err(CallFailed(LaunchBevy)))
    ensures WindowProcSpec(s, Command(ID_LAUNCH_BEVY), env, replay).lresult == 0
  {
  }

  /** The visibility toggle commands (ids 1 and 2). */
  predicate IsToggleCommand(m: Message) {
    m == Command(ID_SHOW_LOGS) || m == Command(ID_HIDE_LOGS)
  }

  /** No message but the two toggle commands changes the display state. */
  lemma OnlyTogglesChangeState(s: LogDisplayState, m: Message, env: Env, replay: Result<(), ReplayStage>)
    ensures !IsToggleCommand(m) ==> WindowProcSpec(s, m, env, replay).next == s
  {
  }

  /** Choosing the toggle the menu shows, when every call succeeds, moves to
      the other state, so the next menu offers the opposite toggle. */
  lemma ChosenToggleFlipsState(s: LogDisplayState, env: Env)
    requires env.failing == {}
    ensures var t := Handle(s, Command(ToggleItem(s).id), env, Ok(()));
      t.result == Ok(0) &&
      t.next == (if s == AttachedToConsole then DetachedFromConsole else AttachedToConsole) &&
      MenuFor(t.next)[0] != MenuFor(s)[0]
  {
  }

  // ---------------------------------------------------------------------
  // A sequence of messages

  /** One delivered message with the outside world's answers to it. */
  datatype Input = Input(msg: Message, env: Env, replay: Result<(), ReplayStage>)

  /** The display state after the messages, delivered one at a time. */
  function Run(s: LogDisplayState, inputs: seq<Input>): LogDisplayState
    decreases |inputs|
  {
    if inputs == [] then s
    else Run(WindowProcSpec(s, inputs[0].msg, inputs[0].env, inputs[0].replay).next, inputs[1..])
  }

  /** The toggle commands among the inputs, in order. */
  function Toggles(inputs: seq<Input>): seq<Input>
    decreases |inputs|
  {
    if inputs == [] then []
    else if IsToggleCommand(inputs[0].msg) then [inputs[0]] + Toggles(inputs[1..])
    else Toggles(inputs[1..])
  }

  /** Over any run, the display state is decided by the toggle commands
      alone: tray clicks, launches, menu failures, unknown messages and
      shutdown messages leave no trace in it. */
  lemma {:induction false} RunDependsOnlyOnToggles(s: LogDisplayState, inputs: seq<Input>)
    ensures Run(s, inputs) == Run(s, Toggles(inputs))
    decreases |inputs|
  {
    if inputs != [] {
      var i := inputs[0];
      var next := WindowProcSpec(s, i.msg, i.env, i.replay).next;
      RunDependsOnlyOnToggles(next, inputs[1..]);
      if IsToggleCommand(i.msg) {
        assert Toggles(inputs) == [i] + Toggles(inputs[1..]);
        assert ([i] + Toggles(inputs[1..]))[1..] == Toggles(inputs[1..]);
      } else {
        OnlyTogglesChangeState(s, i.msg, i.env, i.replay);
        assert Toggles(inputs) == Toggles(inputs[1..]);
      }
    }
  }

  // ---------------------------------------------------------------------
  // The dispatcher

  /** Whether handling `m` replays the log buffer to standard error: only
      Show Logs does, once the new console exists. */
  predicate ReplaysLogs(m: Message, env: Env) {
    m == Command(ID_SHOW_LOGS) && ConsoleCreate !in env.failing
  }

  /**
   * The tray window's state and collaborators: the menu's display state
   * (the `LOGS_CONTEXT_MENU_BUTTON` global), the outside world, the global
   * log sink and standard error.
   */
  class Dispatcher {
    var display: LogDisplayState
    const os: Os
    const logs: BufferSink
    const stderr: Writer

    constructor (os: Os, logs: BufferSink, stderr: Writer)
      ensures display == InitialDisplayState
      ensures this.os == os && this.logs == logs && this.stderr == stderr
    {
      display := InitialDisplayState;
      this.os := os;
      this.logs := logs;
      this.stderr := stderr;
    }

    /** `show_context_menu`: builds the menu for the current state and
        shows it, each call propagated with `?`. */
    method ShowContextMenu(env: Env) returns (r: Result<(), Report>)
      modifies os
      ensures os.trace == old(os.trace) + RunCalls(MenuCalls(display), env.failing).calls
      ensures r == RunCalls(MenuCalls(display), env.failing).result
    {
      MenuRunInThreeParts(display, env.failing);
      var created := os.Invoke(CreatePopupMenu, env.failing);
      if !created {
        return Err(CallFailed(CreatePopupMenu));
      }
      var built := AppendMenuItems(env);
      if built.Err? {
        return built;
      }
      r := PopUpMenu(env);
    }

    /** The `AppendMenuW` calls of `show_context_menu`: the toggle the state
        calls for, then the fixed entries. */
    method AppendMenuItems(env: Env) returns (r: Result<(), Report>)
      modifies os
      ensures os.trace == old(os.trace) + RunCalls(MenuItemCalls(display), env.failing).calls
      ensures r == RunCalls(MenuItemCalls(display), env.failing).result
    {
      var toggle := match display
        case AttachedToConsole => Item(ID_HIDE_LOGS, "Hide Logs")
        case DetachedFromConsole => Item(ID_SHOW_LOGS, "Show Logs");
      RunCallsCons(AppendMenu(0, toggle), FixedEntryCalls, env.failing);
      var ok := os.Invoke(AppendMenu(0, toggle), env.failing);
      if !ok {
        return Err(CallFailed(AppendMenu(0, toggle)));
      }
      r := AppendFixedEntries(env);
    }

    /** The separators, "Launch Bevy" and "Exit". */
    method AppendFixedEntries(env: Env) returns (r: Result<(), Report>)
      modifies os
      ensures os.trace == old(os.trace) + RunCalls(FixedEntryCalls, env.failing).calls
      ensures r == RunCalls(FixedEntryCalls, env.failing).result
    {
      ghost var steps := FixedEntryCalls;
      var ok;
      ok := os.Invoke(AppendMenu(1, Separator), env.failing);
      if !ok {
        RunCallsStopsAt(steps, env.failing, 0);
        return Err(CallFailed(AppendMenu(1, Separator)));
      }
      ok := os.Invoke(AppendMenu(2, Item(ID_LAUNCH_BEVY, "Launch Bevy")), env.failing);
      if !ok {
        RunCallsStopsAt(steps, env.failing, 1);
        return Err(CallFailed(AppendMenu(2, Item(ID_LAUNCH_BEVY, "Launch Bevy"))));
      }
      ok := os.Invoke(AppendMenu(3, Separator), env.failing);
      if !ok {
        RunCallsStopsAt(steps, env.failing, 2);
        return Err(CallFailed(AppendMenu(3, Separator)));
      }
      ok := os.Invoke(AppendMenu(4, Item(ID_EXIT, "Exit")), env.failing);
      if !ok {
        RunCallsStopsAt(steps, env.failing, 3);
        return Err(CallFailed(AppendMenu(4, Item(ID_EXIT, "Exit"))));
      }
      assert forall api | api in steps :: api !in env.failing;
      RunCallsAllSucceed(steps, env.failing);
      r := Ok(());
    }

    /** The end of `show_context_menu`: show the menu at the cursor, then
        free it. */
    method PopUpMenu(env: Env) returns (r: Result<(), Report>)
      modifies os
      ensures os.trace == old(os.trace) + RunCalls(PopupCalls, env.failing).calls
      ensures r == RunCalls(PopupCalls, env.failing).result
    {
      ghost var steps := PopupCalls;
      var ok;
      ok := os.Invoke(GetCursorPos, env.failing);
      if !ok {
        RunCallsStopsAt(steps, env.failing, 0);
        return Err(CallFailed(GetCursorPos));
      }
      ok := os.Invoke(SetForegroundWindow, env.failing);
      if !ok {
        RunCallsStopsAt(steps, env.failing, 1);
        return Err(CallFailed(SetForegroundWindow));
      }
      ok := os.Invoke(TrackPopupMenu, env.failing);
      if !ok {
        RunCallsStopsAt(steps, env.failing, 2);
        return Err(CallFailed(TrackPopupMenu));
      }
      ok := os.Invoke(DestroyMenu, env.failing);
      if !ok {
        RunCallsStopsAt(steps, env.failing, 3);
        return Err(CallFailed(DestroyMenu));
      }
      assert forall api | api in steps :: api !in env.failing;
      RunCallsAllSucceed(steps, env.failing);
      r := Ok(());
    }

    /** `window_proc_inner`: dispatches on the decoded message. */
    method WindowProcInner(m: Message, env: Env) returns (r: Result<int, Report>)
      modifies this, os, stderr
      decreases Rank(m), 1
      ensures var t := Handle(old(display), m, env, ReplayInto(old(stderr.script), logs.buffer.bytes).result);
        display == t.next && os.trace == old(os.trace) + t.calls && r == t.result
      ensures ReplaysLogs(m, env) ==>
        stderr.out == old(stderr.out) + ReplayInto(old(stderr.script), logs.buffer.bytes).written &&
        stderr.script == ReplayInto(old(stderr.script), logs.buffer.bytes).rest
      ensures !ReplaysLogs(m, env) ==> stderr.out == old(stderr.out) && stderr.script == old(stderr.script)
    {
      match m
      case TrayCallback(event) =>
        r := OnTrayCallback(event, env);
      case TaskbarCreated =>
        var added := os.Invoke(ReAddTrayIcon, env.failing);
        if !added { return Err(CallFailed(ReAddTrayIcon)); }
        r := Ok(0);
      case Command(id) =>
        r := OnCommand(id, env);
      case Close =>
        var deleted := os.Invoke(DeleteTrayIcon, env.failing);
        var destroyed := os.Invoke(DestroyWindow, env.failing);
        r := Ok(0);
      case Destroy =>
        var deleted := os.Invoke(DeleteTrayIcon, env.failing);
        os.Record(PostQuitMessage(0));
        r := Ok(0);
      case Unhandled(message, wparam, lparam) =>
        os.Record(DefWindowProc(message, wparam, lparam));
        r := Ok(env.defaultResult);
    }

    /** The tray icon's callback message: a left click launches the worker,
        ignoring a failure; a right click or a context-menu request shows
        the menu. */
    method OnTrayCallback(event: TrayEvent, env: Env) returns (r: Result<int, Report>)
      modifies os
      ensures var t := Handle(display, TrayCallback(event), env, Ok(()));
        os.trace == old(os.trace) + t.calls && r == t.result
    {
      match event {
        case LeftButtonUp =>
          var launched := os.Invoke(LaunchBevy, env.failing);
        case RightButtonUp =>
          var shown := ShowContextMenu(env);
          if shown.Err? { return Err(shown.error); }
        case ContextMenu =>
          var shown := ShowContextMenu(env);
          if shown.Err? { return Err(shown.error); }
        case UnknownTrayEvent(_) =>
      }
      r := Ok(0);
    }

    /** `WM_COMMAND`: the menu item chosen. */
    method OnCommand(id: usize, env: Env) returns (r: Result<int, Report>)
      modifies this, os, stderr
      decreases 1, 0
      ensures var t := Handle(old(display), Command(id), env, ReplayInto(old(stderr.script), logs.buffer.bytes).result);
        display == t.next && os.trace == old(os.trace) + t.calls && r == t.result
      ensures ReplaysLogs(Command(id), env) ==>
        stderr.out == old(stderr.out) + ReplayInto(old(stderr.script), logs.buffer.bytes).written &&
        stderr.script == ReplayInto(old(stderr.script), logs.buffer.bytes).rest
      ensures !ReplaysLogs(Command(id), env) ==> stderr.out == old(stderr.out) && stderr.script == old(stderr.script)
    {
      if id == ID_SHOW_LOGS {
        r := ShowLogs(env);
      } else if id == ID_HIDE_LOGS {
        r := HideLogs(env);
      } else if id == ID_LAUNCH_BEVY {
        var launched := os.Invoke(LaunchBevy, env.failing);
        if !launched { return Err(CallFailed(LaunchBevy)); }
        r := Ok(0);
      } else if id == ID_EXIT {
        os.Record(SendCloseMessage);
        var answer := WindowProc(Close, env);
        r := Ok(answer);
      } else {
        r := Ok(0);
      }
    }

    /** Show Logs: a new console, then the buffered log replayed into it. */
    method ShowLogs(env: Env) returns (r: Result<int, Report>)
      modifies this, os, stderr
      ensures var t := Handle(old(display), Command(ID_SHOW_LOGS), env, ReplayInto(old(stderr.script), logs.buffer.bytes).result);
        display == t.next && os.trace == old(os.trace) + t.calls && r == t.result
      ensures ConsoleCreate !in env.failing ==>
        stderr.out == old(stderr.out) + ReplayInto(old(stderr.script), logs.buffer.bytes).written &&
        stderr.script == ReplayInto(old(stderr.script), logs.buffer.bytes).rest
      ensures ConsoleCreate in env.failing ==> stderr.out == old(stderr.out) && stderr.script == old(stderr.script)
    {
      var detached := os.Invoke(ConsoleDetach, env.failing);
      var created := os.Invoke(ConsoleCreate, env.failing);
      if !created { return Err(CallFailed(ConsoleCreate)); }
      display := AttachedToConsole;
      var replayed := logs.Replay(stderr);
      if replayed.Err? { return Err(ReplayFailed(replayed.error)); }
      r := Ok(0);
    }

    /** Hide Logs: leave the console, go back to the parent's if there is
        one, and attach the Ctrl-C handler to it. */
    method HideLogs(env: Env) returns (r: Result<int, Report>)
      modifies this, os
      ensures var t := Handle(old(display), Command(ID_HIDE_LOGS), env, Ok(()));
        display == t.next && os.trace == old(os.trace) + t.calls && r == t.result
    {
      var detached := os.Invoke(ConsoleDetach, env.failing);
      if !detached { return Err(CallFailed(ConsoleDetach)); }
      display := DetachedFromConsole;
      var attached := os.Invoke(ConsoleAttachParent, env.failing);
      if attached {
        var handled := os.Invoke(AttachCtrlCHandler, env.failing);
        if !handled { return Err(CallFailed(AttachCtrlCHandler)); }
      }
      r := Ok(0);
    }

    /** `window_proc`: the entry point the OS calls; it never fails. */
    method WindowProc(m: Message, env: Env) returns (lresult: int)
      modifies this, os, stderr
      decreases Rank(m), 2
      ensures var d := WindowProcSpec(old(display), m, env, ReplayInto(old(stderr.script), logs.buffer.bytes).result);
        display == d.next && os.trace == old(os.trace) + d.calls && lresult == d.lresult
      ensures ReplaysLogs(m, env) ==>
        stderr.out == old(stderr.out) + ReplayInto(old(stderr.script), logs.buffer.bytes).written &&
        stderr.script == ReplayInto(old(stderr.script), logs.buffer.bytes).rest
      ensures !ReplaysLogs(m, env) ==> stderr.out == old(stderr.out) && stderr.script == old(stderr.script)
    {
      var r := WindowProcInner(m, env);
      match r
      case Ok(v) =>
        lresult := v;
      case Err(_) =>
        os.Record(WriteErrorLog);
        lresult := 0;
    }
  }
}
