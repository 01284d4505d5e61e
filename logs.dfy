/**
 * The in-memory log sink of src/logs.rs, the log display state, and the
 * console set-up run at startup.
 *
 * Every log line is appended to one shared byte buffer from process start;
 * when the user asks to see the logs, the whole buffer is replayed, framed by
 * a fixed header and footer line, into the newly created console.
 */
module Logs {
  import opened Io
  import opened Platform

  // ---------------------------------------------------------------------
  // Replay framing

  const PreambleText: string := "=== Previous Logs ===\n"
  const PostambleText: string := "=== End of Previous Logs ===\n"

  /** `b` is the ASCII (and so UTF-8) encoding of `s`. */
  predicate Encodes(b: seq<byte>, s: string) {
    |b| == |s| && forall i | 0 <= i < |s| :: b[i] as int == s[i] as int
  }

  /** The line written before the buffer, as bytes. */
  const Preamble: seq<byte> := [
    0x3D, 0x3D, 0x3D, 0x20, 0x50, 0x72, 0x65, 0x76, 0x69, 0x6F, 0x75,
    0x73, 0x20, 0x4C, 0x6F, 0x67, 0x73, 0x20, 0x3D, 0x3D, 0x3D, 0x0A]

  /** The line written after the buffer, as bytes. */
  const Postamble: seq<byte> := [
    0x3D, 0x3D, 0x3D, 0x20, 0x45, 0x6E, 0x64, 0x20, 0x6F, 0x66, 0x20, 0x50, 0x72, 0x65, 0x76,
    0x69, 0x6F, 0x75, 0x73, 0x20, 0x4C, 0x6F, 0x67, 0x73, 0x20, 0x3D, 0x3D, 0x3D, 0x0A]

  /** The header constant is the header line. */
  lemma PreambleIsTheHeaderLine()
    ensures Encodes(Preamble, PreambleText)
  {
    forall i | 0 <= i < |PreambleText| ensures Preamble[i] as int == PreambleText[i] as int {
      if i < 11 { PreambleStart(i); } else { PreambleEnd(i); }
    }
  }

  lemma PreambleStart(i: int)
    requires 0 <= i < 11
    ensures Preamble[i] as int == PreambleText[i] as int
  {
  }

  lemma PreambleEnd(i: int)
    requires 11 <= i < 22
    ensures Preamble[i] as int == PreambleText[i] as int
  {
  }

  /** The footer constant is the footer line. */
  lemma PostambleIsTheFooterLine()
    ensures Encodes(Postamble, PostambleText)
  {
    forall i | 0 <= i < |PostambleText| ensures Postamble[i] as int == PostambleText[i] as int {
      if i < 15 { PostambleStart(i); } else { PostambleEnd(i); }
    }
  }

  lemma PostambleStart(i: int)
    requires 0 <= i < 15
    ensures Postamble[i] as int == PostambleText[i] as int
  {
  }

  lemma PostambleEnd(i: int)
    requires 15 <= i < 29
    ensures Postamble[i] as int == PostambleText[i] as int
  {
  }

  /** What a replay that succeeds writes: header, the buffer verbatim, footer. */
  function Framed(buffer: seq<byte>): seq<byte> {
    Preamble + buffer + Postamble
  }

  // ---------------------------------------------------------------------
  // Replay as a function of the writer's answers

  datatype ReplayEffect = ReplayEffect(result: Result<(), ReplayStage>, written: seq<byte>, rest: seq<WriteOutcome>)

  /**
   * Writes `header`, then `body`, then `footer`, each with `write_all` and
   * propagated with `?`: the run stops at the first write that fails.
   */
  function WriteFramed(script: seq<WriteOutcome>, header: seq<byte>, body: seq<byte>, footer: seq<byte>): (e: ReplayEffect)
    ensures |e.written| <= |header + body + footer|
    ensures e.written == (header + body + footer)[..|e.written|]
    ensures e.result.Ok? <==> e.written == header + body + footer
  {
    var head := WriteAllEffect(script, header);
    if !head.ok then ReplayEffect(Err(PreambleLine), head.written, head.rest)
    else
      var middle := WriteAllEffect(head.rest, body);
      if !middle.ok then
        assert (header + body + footer)[..|header| + |middle.written|] == header + middle.written;
        ReplayEffect(Err(BufferBytes), header + middle.written, middle.rest)
      else
        var tail := WriteAllEffect(middle.rest, footer);
        assert (header + body + footer)[..|header| + |body| + |tail.written|] == header + body + tail.written;
        ReplayEffect(if tail.ok then Ok(()) else Err(PostambleLine), header + body + tail.written, tail.rest)
  }

  /**
   * `replay(writer)`: the header line, then the buffer, then the footer
   * line. What reaches the writer is always a prefix of the framed buffer,
   * and all of it exactly when the replay succeeds.
   */
  function ReplayInto(script: seq<WriteOutcome>, buffer: seq<byte>): (e: ReplayEffect)
    ensures |e.written| <= |Framed(buffer)| && e.written == Framed(buffer)[..|e.written|]
    ensures e.result.Ok? <==> e.written == Framed(buffer)
  {
    WriteFramed(script, Preamble, buffer, Postamble)
  }

  /** True when the next `n` write_all calls with bytes to write are accepted. */
  predicate AcceptsWrites(script: seq<WriteOutcome>, n: nat) {
    forall i | 0 <= i < n && i < |script| :: script[i].Accept?
  }

  /** The number of write_all calls of a replay that reach the writer: an
      empty buffer is written without one. */
  function ReplayCalls(buffer: seq<byte>): nat {
    if buffer == [] then 2 else 3
  }

  /** A replay fails exactly when the writer rejects one of its writes; an
      empty buffer is never a reason to fail. */
  lemma ReplayFailsOnlyWhenWriterFails(script: seq<WriteOutcome>, buffer: seq<byte>)
    ensures ReplayInto(script, buffer).result.Ok? <==> AcceptsWrites(script, ReplayCalls(buffer))
  {
    var head := WriteAllEffect(script, Preamble);
    if head.ok {
      assert head.rest == if script == [] then [] else script[1..];
      var body := WriteAllEffect(head.rest, buffer);
      if body.ok {
        assert body.rest == if buffer == [] then head.rest else if head.rest == [] then [] else head.rest[1..];
      }
    }
  }

  /** With an accepting writer an empty buffer yields just the two lines. */
  lemma ReplayOfEmptyBuffer(script: seq<WriteOutcome>)
    requires AcceptsWrites(script, 2)
    ensures ReplayInto(script, []).result == Ok(())
    ensures ReplayInto(script, []).written == Preamble + Postamble
  {
    ReplayFailsOnlyWhenWriterFails(script, []);
    assert Framed([]) == Preamble + Postamble;
  }

  /** When writing the header fails nothing further is written and no further
      write is attempted. */
  lemma ReplayStopsAtFailedPreamble(script: seq<WriteOutcome>, buffer: seq<byte>)
    requires script != [] && script[0].Reject?
    ensures ReplayInto(script, buffer).result == Err(PreambleLine)
    ensures |ReplayInto(script, buffer).written| < |Preamble|
    ensures ReplayInto(script, buffer).rest == script[1..]
  {
  }

  // ---------------------------------------------------------------------
  // The sink's buffer after a series of writes

  /** The buffer after `write(ws[0])`, ..., `write(ws[n-1])`, one at a time. */
  function AfterWrites(buffer: seq<byte>, ws: seq<seq<byte>>): seq<byte>
    decreases |ws|
  {
    if ws == [] then buffer else AfterWrites(buffer + ws[0], ws[1..])
  }

  /** `w1 ++ ... ++ wn`. */
  function Concat(ws: seq<seq<byte>>): seq<byte>
    decreases |ws|
  {
    if ws == [] then [] else ws[0] + Concat(ws[1..])
  }

  /** Writes only ever append: the buffer keeps what it had, followed by
      every write's bytes in order. */
  lemma {:induction false} AfterWritesAppends(buffer: seq<byte>, ws: seq<seq<byte>>)
    ensures AfterWrites(buffer, ws) == buffer + Concat(ws)
    decreases |ws|
  {
    if ws != [] {
      AfterWritesAppends(buffer + ws[0], ws[1..]);
      assert buffer + ws[0] + Concat(ws[1..]) == buffer + (ws[0] + Concat(ws[1..]));
    }
  }

  /** `needle` occurs in `hay` starting at index `at`. */
  predicate OccursAt(hay: seq<byte>, needle: seq<byte>, at: nat) {
    at + |needle| <= |hay| && hay[at..at + |needle|] == needle
  }

  /** Replay completeness: after writes `w1 ... wn` to a sink holding
      `earlier`, a successful replay's output holds `w1 ++ ... ++ wn`
      contiguously, right after the header and the earlier bytes. */
  lemma ReplayContainsEveryWrite(script: seq<WriteOutcome>, earlier: seq<byte>, ws: seq<seq<byte>>)
    requires ReplayInto(script, AfterWrites(earlier, ws)).result.Ok?
    ensures OccursAt(ReplayInto(script, AfterWrites(earlier, ws)).written, Concat(ws), |Preamble| + |earlier|)
  {
    AfterWritesAppends(earlier, ws);
    var out := ReplayInto(script, AfterWrites(earlier, ws)).written;
    assert out == Preamble + earlier + Concat(ws) + Postamble;
    var at := |Preamble| + |earlier|;
    assert out[at..at + |Concat(ws)|] == Concat(ws);
  }

  // ---------------------------------------------------------------------
  // The sink

  /** The vector behind the sink's `Arc<Mutex<Vec<u8>>>`; every clone of a
      sink refers to the same one. */
  class SharedBytes {
    var bytes: seq<byte>

    constructor ()
      ensures bytes == []
    {
      bytes := [];
    }
  }

  /** `BufferSink`: an append-only byte buffer that can be replayed. */
  class BufferSink {
    const buffer: SharedBytes

    /** `BufferSink::default()`: a sink over a fresh, empty buffer. */
    constructor Default()
      ensures fresh(buffer) && buffer.bytes == []
    {
      buffer := new SharedBytes();
    }

    /** A clone: a new sink over the same buffer. */
    constructor Share(buffer: SharedBytes)
      ensures this.buffer == buffer
    {
      this.buffer := buffer;
    }

    /** `write(buf)`: appends `buf` verbatim and reports all of it written;
        it never fails. */
    method Write(buf: seq<byte>) returns (r: Result<nat, ()>)
      modifies buffer
      ensures buffer.bytes == old(buffer.bytes) + buf
      ensures buffer.bytes[..|old(buffer.bytes)|] == old(buffer.bytes)
      ensures r == Ok(|buf|)
    {
      buffer.bytes := buffer.bytes + buf;
      r := Ok(|buf|);
    }

    /** `flush()`: nothing is buffered beyond the vector, so it does nothing
        and succeeds. */
    method Flush() returns (r: Result<(), ()>)
      ensures r == Ok(())
    {
      r := Ok(());
    }

    /** `make_writer()`: the writer handed to the logging front end for one
        record, a clone sharing this sink's buffer. */
    method MakeWriter() returns (w: BufferSink)
      ensures fresh(w) && w.buffer == buffer
    {
      w := new BufferSink.Share(buffer);
    }

    /** `replay(writer)`: reads the buffer and writes the framed copy; the
        buffer itself is left as it was. */
    method Replay(w: Writer) returns (r: Result<(), ReplayStage>)
      modifies w
      ensures buffer.bytes == old(buffer.bytes)
      ensures r == ReplayInto(old(w.script), buffer.bytes).result
      ensures w.out == old(w.out) + ReplayInto(old(w.script), buffer.bytes).written
      ensures w.script == ReplayInto(old(w.script), buffer.bytes).rest
    {
      r := WriteFramedTo(w, Preamble, Postamble);
    }

    /** The writes of `replay`, for any header and footer line. */
    method WriteFramedTo(w: Writer, header: seq<byte>, footer: seq<byte>) returns (r: Result<(), ReplayStage>)
      modifies w
      ensures buffer.bytes == old(buffer.bytes)
      ensures r == WriteFramed(old(w.script), header, buffer.bytes, footer).result
      ensures w.out == old(w.out) + WriteFramed(old(w.script), header, buffer.bytes, footer).written
      ensures w.script == WriteFramed(old(w.script), header, buffer.bytes, footer).rest
    {
      var ok := w.WriteAll(header);
      if !ok {
        return Err(PreambleLine);
      }
      ok := w.WriteAll(buffer.bytes);
      if !ok {
        return Err(BufferBytes);
      }
      ok := w.WriteAll(footer);
      if !ok {
        return Err(PostambleLine);
      }
      r := Ok(());
    }
  }

  /**
   * What the logging front end does with one formatted record: it asks the
   * sink for a writer and writes the record through it. Because the writer
   * shares the buffer, the record lands in the original sink.
   */
  method RecordEvent(sink: BufferSink, line: seq<byte>)
    modifies sink.buffer
    ensures sink.buffer.bytes == old(sink.buffer.bytes) + line
  {
    var w := sink.MakeWriter();
    var written := w.Write(line);
  }

  // ---------------------------------------------------------------------
  // Display state and console start-up

  /** Whether the process is showing its logs in a console of its own. The
      tray menu offers "Hide Logs" when attached and "Show Logs" otherwise. */
  datatype LogDisplayState = AttachedToConsole | DetachedFromConsole

  /** The state at start-up, whether or not a console was inherited. */
  const InitialDisplayState: LogDisplayState := DetachedFromConsole

  /** `init_console()`: detach from the default console unless one was
      inherited (ignoring a failure), then attach the Ctrl-C handler with `?`. */
  function InitConsoleEffect(inheriting: bool, failing: set<Api>): (a: Attempt)
    ensures ConsoleDetach in a.calls <==> !inheriting
    ensures |a.calls| > 0 && a.calls[|a.calls| - 1] == AttachCtrlCHandler
    ensures a.result.Ok? <==> AttachCtrlCHandler !in failing
    ensures a.result.Err? ==> a.result.error == CallFailed(AttachCtrlCHandler)
  {
    var detach := if inheriting then [] else [ConsoleDetach];
    Attempt(detach + [AttachCtrlCHandler],
            if AttachCtrlCHandler !in failing then Ok(()) else Err(CallFailed(AttachCtrlCHandler)))
  }

  method InitConsole(os: Os, inheriting: bool, failing: set<Api>) returns (r: Result<(), Report>)
    modifies os
    ensures os.trace == old(os.trace) + InitConsoleEffect(inheriting, failing).calls
    ensures r == InitConsoleEffect(inheriting, failing).result
  {
    if !inheriting {
      var detached := os.Invoke(ConsoleDetach, failing);
    }
    var attached := os.Invoke(AttachCtrlCHandler, failing);
    if !attached {
      return Err(CallFailed(AttachCtrlCHandler));
    }
    r := Ok(());
  }
}
