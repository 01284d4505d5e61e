/**
 * The operating system and the foreign crates as the core sees them:
 * named calls that either succeed or fail, a recorder of the calls made, and
 * the error report that a failed call produces.
 */
module Platform {
  import opened Io

  type u32 = x: int | 0 <= x < 0x1_0000_0000
  type usize = x: int | 0 <= x < 0x1_0000_0000_0000_0000
  type isize = x: int | -0x8000_0000_0000_0000 <= x < 0x8000_0000_0000_0000

  /** One entry of the tray's popup menu. */
  datatype MenuEntry = Item(id: nat, caption: string) | Separator

  /** An external call the core makes. */
  datatype Api =
    // console control (teamy_rust_windows_utils::console)
    | ConsoleDetach
    | ConsoleCreate
    | ConsoleAttachParent
    | AttachCtrlCHandler
    // worker launch (main_bevy_bootstrap::launch_bevy)
    | LaunchBevy
    // tray icon (teamy_rust_windows_utils::tray)
    | ReAddTrayIcon
    | DeleteTrayIcon
    // popup menu (Win32)
    | CreatePopupMenu
    | AppendMenu(position: nat, entry: MenuEntry)
    | GetCursorPos
    | SetForegroundWindow
    | TrackPopupMenu
    | DestroyMenu
    // window lifecycle (Win32)
    | SendCloseMessage
    | DestroyWindow
    | PostQuitMessage(code: int)
    | DefWindowProc(message: u32, wparam: usize, lparam: isize)
    // the timestamped error_<timestamp>.log side file
    | WriteErrorLog

  /** Which step of a log-buffer replay failed. */
  datatype ReplayStage = PreambleLine | BufferBytes | PostambleLine

  /** The error report (eyre::Report) a handler propagates with `?`. */
  datatype Report = CallFailed(api: Api) | ReplayFailed(stage: ReplayStage)

  /**
   * The answers of the outside world during the handling of one message:
   * which calls succeed, and what the default window procedure returns.
   * No call is made twice while one message is handled, so one answer per
   * call suffices.
   */
  datatype Env = Env(failing: set<Api>, defaultResult: int)

  /** A run of calls made in order, stopping at the first one that fails. */
  datatype Attempt = Attempt(calls: seq<Api>, result: Result<(), Report>)

  /**
   * Runs `steps` in order, each one propagated with `?`: the run stops at the
   * first failing call, whose failure becomes the result.
   */
  function RunCalls(steps: seq<Api>, failing: set<Api>): Attempt {
    if steps == [] then Attempt([], Ok(()))
    else if steps[0] in failing then Attempt([steps[0]], Err(CallFailed(steps[0])))
    else
      var tail := RunCalls(steps[1..], failing);
      Attempt([steps[0]] + tail.calls, tail.result)
  }

  /** A run makes a prefix of its calls; it succeeds exactly when every call
      succeeds, and then makes them all; otherwise it stops at, and fails
      with, a failing call that all the calls before it passed. */
  lemma {:induction false} RunCallsStopsAtFirstFailure(steps: seq<Api>, failing: set<Api>)
    ensures var a := RunCalls(steps, failing);
      |a.calls| <= |steps| && a.calls == steps[..|a.calls|] &&
      (a.result.Ok? <==> forall i | 0 <= i < |steps| :: steps[i] !in failing) &&
      (a.result.Ok? ==> a.calls == steps) &&
      (a.result.Err? ==>
        |a.calls| > 0 && a.calls[|a.calls| - 1] in failing &&
        a.result.error == CallFailed(a.calls[|a.calls| - 1]) &&
        forall i | 0 <= i < |a.calls| - 1 :: a.calls[i] !in failing)
    decreases |steps|
  {
    if steps != [] && steps[0] !in failing {
      RunCallsStopsAtFirstFailure(steps[1..], failing);
      var tail := RunCalls(steps[1..], failing);
      assert RunCalls(steps, failing).calls == [steps[0]] + tail.calls;
      forall i | 1 <= i < |steps| ensures steps[i] == steps[1..][i - 1] { }
    }
  }

  /** A run whose first failing call is `steps[k]` makes the calls up to and
      including it, and fails with it. */
  lemma {:induction false} RunCallsStopsAt(steps: seq<Api>, failing: set<Api>, k: nat)
    requires k < |steps| && steps[k] in failing
    requires forall i | 0 <= i < k :: steps[i] !in failing
    ensures RunCalls(steps, failing) == Attempt(steps[..k + 1], Err(CallFailed(steps[k])))
    decreases k
  {
    if k > 0 {
      RunCallsStopsAt(steps[1..], failing, k - 1);
      assert [steps[0]] + steps[1..][..k] == steps[..k + 1];
    }
  }

  /** Running `a + b` runs `a`, and then `b` only if all of `a` succeeded. */
  lemma {:induction false} RunCallsAppend(a: seq<Api>, b: seq<Api>, failing: set<Api>)
    ensures RunCalls(a + b, failing) ==
      (var ra := RunCalls(a, failing);
       if ra.result.Err? then ra
       else Attempt(a + RunCalls(b, failing).calls, RunCalls(b, failing).result))
    decreases |a|
  {
    if a == [] {
      assert a + b == b;
    } else {
      RunCallsAppend(a[1..], b, failing);
      assert (a + b)[0] == a[0] && (a + b)[1..] == a[1..] + b;
      assert [a[0]] + (a[1..] + RunCalls(b, failing).calls) == a + RunCalls(b, failing).calls;
    }
  }

  /** A run makes its first call, and the rest only if that one succeeded. */
  lemma RunCallsCons(api: Api, rest: seq<Api>, failing: set<Api>)
    ensures RunCalls([api] + rest, failing) ==
      if api in failing then Attempt([api], Err(CallFailed(api)))
      else Attempt([api] + RunCalls(rest, failing).calls, RunCalls(rest, failing).result)
  {
    assert ([api] + rest)[0] == api && ([api] + rest)[1..] == rest;
  }

  /** A run in which every call succeeds makes all of them and succeeds. */
  lemma RunCallsAllSucceed(steps: seq<Api>, failing: set<Api>)
    requires forall api | api in steps :: api !in failing
    ensures RunCalls(steps, failing) == Attempt(steps, Ok(()))
  {
  }

  /** Records the external calls the core makes, in the order it makes them. */
  class Os {
    var trace: seq<Api>

    constructor ()
      ensures trace == []
    {
      trace := [];
    }

    /** Makes a call that may fail and reports whether it succeeded. */
    method Invoke(api: Api, failing: set<Api>) returns (ok: bool)
      modifies this
      ensures trace == old(trace) + [api]
      ensures ok == (api !in failing)
    {
      trace := trace + [api];
      ok := api !in failing;
    }

    /** Makes a call whose outcome the caller does not look at. */
    method Record(api: Api)
      modifies this
      ensures trace == old(trace) + [api]
    {
      trace := trace + [api];
    }
  }
}
