/** Sinks (redlog/sinks.py): where formatted lines go. The string sink is its
    buffer; the multiplex sink fans a line out to its delegates, each of which
    may raise without disturbing the others; the file sink records whether it
    owns the stream it writes to. Actual output is represented by the effect a
    sink asks for, not performed. */
module Sinks {
  import opened Wrappers
  import opened Text
  import opened Utils

  // ---------------------------------------------------------------------
  // StringSink
  // ---------------------------------------------------------------------

  datatype StringSink = StringSink(buffer: seq<string>)

  /** `StringSink()`. */
  const NewStringSink: StringSink := StringSink([])

  /** `write(formatted)`: the buffer after appending one line. */
  function Write(s: StringSink, line: string): (r: StringSink)
    ensures |r.buffer| == |s.buffer| + 1
    ensures r.buffer[..|s.buffer|] == s.buffer
    ensures r.buffer[|s.buffer|] == line
  {
    StringSink(s.buffer + [line])
  }

  /** `flush()`: nothing to flush. */
  function Flush(s: StringSink): (r: StringSink)
    ensures r == s
  {
    s
  }

  /** `get_output()`: the lines joined by newlines. */
  function GetOutput(s: StringSink): (r: string)
    ensures |s.buffer| == 0 ==> r == ""
    ensures |s.buffer| == 1 ==> r == s.buffer[0]
  {
    Join("\n", s.buffer)
  }

  /** `clear()`. */
  function Clear(s: StringSink): (r: StringSink)
    ensures |r.buffer| == 0
  {
    NewStringSink
  }

  /** Every line written is part of the output. */
  lemma OutputShowsEveryWrite(s: StringSink, i: nat)
    requires i < |s.buffer|
    ensures Contains(GetOutput(s), s.buffer[i])
  {
    JoinContains("\n", s.buffer, i);
  }

  /** A write extends the output by a newline and the line (or is the whole
      output if nothing was written before). */
  lemma WriteExtendsOutput(s: StringSink, line: string)
    ensures GetOutput(Write(s, line)) == if |s.buffer| == 0 then line else GetOutput(s) + "\n" + line
  {
    if |s.buffer| > 0 {
      JoinSnoc("\n", s.buffer, line);
    }
  }

  /** When no line contains a newline, the output splits back into the lines
      written, in order. */
  lemma OutputSplitsIntoLines(s: StringSink)
    requires |s.buffer| >= 1
    requires forall i :: 0 <= i < |s.buffer| ==> '\n' !in s.buffer[i]
    ensures Split(GetOutput(s), '\n') == s.buffer
  {
    SplitJoin(s.buffer, '\n');
  }

  /** After `clear()` the output is empty, and the sink behaves as new. */
  lemma ClearEmptiesOutput(s: StringSink, line: string)
    ensures GetOutput(Clear(s)) == ""
    ensures GetOutput(Write(Clear(s), line)) == line
  {
    WriteExtendsOutput(Clear(s), line);
  }

  // ---------------------------------------------------------------------
  // MultiplexSink
  // ---------------------------------------------------------------------

  /** A delegate sink: a working string sink, or one whose `write` and
      `flush` raise `fault`. */
  datatype Delegate = Buffer(sink: StringSink) | Broken(fault: Fault)

  datatype Multiplex = Multiplex(delegates: seq<Delegate>)

  /** One delegate's `write`: its new state, or the exception it raises. */
  function DelegateWrite(d: Delegate, line: string): (r: Result<Delegate, Fault>)
    ensures r.Success? <==> d.Buffer?
    ensures d.Buffer? ==> r.value == Buffer(Write(d.sink, line))
    ensures d.Broken? ==> r.error == d.fault
  {
    match d
    case Buffer(s) => Success(Buffer(Write(s, line)))
    case Broken(f) => Failure(f)
  }

  /** One delegate's `flush`. */
  function DelegateFlush(d: Delegate): (r: Outcome<Fault>)
    ensures r.Pass? <==> d.Buffer?
    ensures d.Broken? ==> r == Fail(d.fault)
  {
    match d
    case Buffer(s) => Pass
    case Broken(f) => Fail(f)
  }

  /** `add_sink(sink)`. */
  function AddSink(m: Multiplex, d: Delegate): (r: Multiplex)
    ensures |r.delegates| == |m.delegates| + 1
    ensures r.delegates[..|m.delegates|] == m.delegates
    ensures r.delegates[|m.delegates|] == d
  {
    Multiplex(m.delegates + [d])
  }

  /** `write(formatted)`: each delegate in turn, an exception from one being
      swallowed before moving on to the next. Returns the delegates' new
      states, which of them received the line, and the multiplex's own
      outcome, which is always success. */
  method MultiplexWrite(m: Multiplex, line: string) returns (r: Multiplex, delivered: seq<bool>, outcome: Outcome<Fault>)
    ensures |r.delegates| == |m.delegates| && |delivered| == |m.delegates|
    ensures forall i :: 0 <= i < |m.delegates| ==> (delivered[i] <==> m.delegates[i].Buffer?)
    ensures forall i :: 0 <= i < |m.delegates| && m.delegates[i].Buffer? ==>
      r.delegates[i] == Buffer(Write(m.delegates[i].sink, line))
    ensures forall i :: 0 <= i < |m.delegates| && m.delegates[i].Broken? ==> r.delegates[i] == m.delegates[i]
    ensures outcome.Pass?
  {
    var out: seq<Delegate> := [];
    delivered := [];
    var k := 0;
    while k < |m.delegates|
      invariant 0 <= k <= |m.delegates|
      invariant |out| == k && |delivered| == k
      invariant forall i :: 0 <= i < k ==> (delivered[i] <==> m.delegates[i].Buffer?)
      invariant forall i :: 0 <= i < k && m.delegates[i].Buffer? ==> out[i] == Buffer(Write(m.delegates[i].sink, line))
      invariant forall i :: 0 <= i < k && m.delegates[i].Broken? ==> out[i] == m.delegates[i]
    {
      var d := m.delegates[k];
      match DelegateWrite(d, line) {
        case Success(d') =>
          out := out + [d'];
          delivered := delivered + [true];
        case Failure(_) =>
          out := out + [d];
          delivered := delivered + [false];
      }
      k := k + 1;
    }
    r := Multiplex(out);
    outcome := Pass;
  }

  /** `flush()`: every delegate is flushed, failures are swallowed, and the
      multiplex itself succeeds. Returns each delegate's own outcome. */
  method MultiplexFlush(m: Multiplex) returns (outcomes: seq<Outcome<Fault>>, outcome: Outcome<Fault>)
    ensures |outcomes| == |m.delegates|
    ensures forall i :: 0 <= i < |m.delegates| ==> (outcomes[i].Pass? <==> m.delegates[i].Buffer?)
    ensures forall i :: 0 <= i < |m.delegates| && m.delegates[i].Broken? ==> outcomes[i] == Fail(m.delegates[i].fault)
    ensures outcome.Pass?
  {
    outcomes := [];
    var k := 0;
    while k < |m.delegates|
      invariant 0 <= k <= |m.delegates|
      invariant |outcomes| == k
      invariant forall i :: 0 <= i < k ==> outcomes[i] == DelegateFlush(m.delegates[i])
    {
      outcomes := outcomes + [DelegateFlush(m.delegates[k])];
      k := k + 1;
    }
    outcome := Pass;
  }

  // ---------------------------------------------------------------------
  // FileSink
  // ---------------------------------------------------------------------

  /** The stream a file sink writes to: the file it opened, or stderr. */
  datatype Stream = OwnedFile(path: string) | Stderr

  datatype FileSink = FileSink(filename: string, stream: Stream, shouldClose: bool)

  /** `FileSink(filename)`, given what opening the file for appending did.
      An OSError (IOError is the same class) falls back to stderr; any other
      exception escapes the constructor. */
  function OpenFileSink(filename: string, open: Outcome<Fault>): (r: Result<FileSink, Fault>)
    ensures r.Failure? <==> open.Fail? && open.error != OSError
    ensures r.Failure? ==> r.error == open.error
    ensures r.Success? ==> r.value.filename == filename
    ensures r.Success? ==> (r.value.shouldClose <==> open.Pass?)
    ensures r.Success? && open.Pass? ==> r.value.stream == OwnedFile(filename)
    ensures r.Success? && open.Fail? ==> r.value.stream == Stderr
  {
    match open
    case Pass => Success(FileSink(filename, OwnedFile(filename), true))
    case Fail(OSError) => Success(FileSink(filename, Stderr, false))
    case Fail(e) => Failure(e)
  }

  /** What a file sink asks of its stream. */
  datatype StreamAction = Print(target: Stream, text: string) | FlushStream(target: Stream) | CloseStream(target: Stream) | NoAction

  /** `write(formatted)`: `print` adds the newline. */
  function FileWrite(s: FileSink, line: string): (a: StreamAction)
    ensures a.Print? && a.target == s.stream
    ensures |a.text| == |line| + 1 && a.text[..|line|] == line && a.text[|line|] == '\n'
  {
    Print(s.stream, line + "\n")
  }

  function FileFlush(s: FileSink): (a: StreamAction)
    ensures a.FlushStream? && a.target == s.stream
  {
    FlushStream(s.stream)
  }

  /** `close()`: the stream is closed only if the sink opened it. */
  function FileClose(s: FileSink): (a: StreamAction)
    ensures a.CloseStream? <==> s.shouldClose
    ensures a.CloseStream? ==> a.target == s.stream
    ensures !a.CloseStream? ==> a == NoAction
  {
    if s.shouldClose then CloseStream(s.stream) else NoAction
  }

  /** A file sink closes exactly the file it opened and never stderr: after a
      failed open it writes to stderr and its `close` does nothing. */
  lemma FileSinkOwnership(filename: string, open: Outcome<Fault>)
    requires OpenFileSink(filename, open).Success?
    ensures var s := OpenFileSink(filename, open).value;
      && FileClose(s) != CloseStream(Stderr)
      && (open.Pass? ==> FileWrite(s, "").target == OwnedFile(filename) && FileClose(s) == CloseStream(OwnedFile(filename)))
      && (open.Fail? ==> FileWrite(s, "").target == Stderr && FileClose(s) == NoAction)
  {
  }
}
