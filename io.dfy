/**
 * The parts of Rust's `std::io` the core relies on: a `Result` for fallible
 * calls, bytes, and a destination writer (standard error, in the program)
 * whose `write_all` may fail.
 */
module Io {

  /** A fallible call's outcome: `Ok(value)` or `Err(error)`. */
  datatype Result<+T, +E> = Ok(value: T) | Err(error: E)

  type byte = bv8

  /**
   * What the destination does with one `write_all` call that has bytes to
   * write: it takes all of them, or it fails after having taken the first
   * `partial` of them (clamped so that a failed call never takes all).
   */
  datatype WriteOutcome = Accept | Reject(partial: nat)

  /** The effect of one `write_all`: whether it succeeded, what reached the
      destination, and the outcomes left for later calls. */
  datatype WriteEffect = WriteEffect(ok: bool, written: seq<byte>, rest: seq<WriteOutcome>)

  /** True when the next `write_all` with bytes to write will be accepted;
      a writer whose script is exhausted accepts everything. */
  predicate AcceptsNext(script: seq<WriteOutcome>) {
    script == [] || script[0].Accept?
  }

  /**
   * `write_all(bytes)` against a writer that answers from `script`.
   * An empty slice is written without calling the destination at all, so it
   * always succeeds and consumes no outcome.
   */
  function WriteAllEffect(script: seq<WriteOutcome>, bytes: seq<byte>): (e: WriteEffect)
    ensures e.ok <==> bytes == [] || AcceptsNext(script)
    ensures e.ok ==> e.written == bytes
    ensures !e.ok ==> |e.written| < |bytes| && e.written == bytes[..|e.written|]
    ensures bytes == [] ==> e.rest == script
    ensures bytes != [] && script != [] ==> e.rest == script[1..]
  {
    if bytes == [] then WriteEffect(true, [], script)
    else if script == [] then WriteEffect(true, bytes, [])
    else match script[0]
      case Accept => WriteEffect(true, bytes, script[1..])
      case Reject(n) =>
        var taken := if n < |bytes| then n else |bytes| - 1;
        WriteEffect(false, bytes[..taken], script[1..])
  }

  /** A destination writer: the bytes it has received so far, and how it
      will answer the `write_all` calls still to come. */
  class Writer {
    var out: seq<byte>
    var script: seq<WriteOutcome>

    constructor (script: seq<WriteOutcome>)
      ensures out == [] && this.script == script
    {
      out := [];
      this.script := script;
    }

    method WriteAll(bytes: seq<byte>) returns (ok: bool)
      modifies this
      ensures ok == WriteAllEffect(old(script), bytes).ok
      ensures out == old(out) + WriteAllEffect(old(script), bytes).written
      ensures script == WriteAllEffect(old(script), bytes).rest
    {
      var e := WriteAllEffect(script, bytes);
      ok := e.ok;
      out := out + e.written;
      script := e.rest;
    }
  }
}
