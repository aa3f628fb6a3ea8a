/** The receiving loops of the clients and of the benchmark.

    A trace lists what successive calls of `recv` return; a trace that stops short leaves
    the loop inside its next call.
 */
module Receivers {
  import opened FileServer

  type Chunk = b: seq<Byte> | 0 < |b| <= BUFFER_SIZE witness [0]

  /** One return of `poll` on one descriptor, with an infinite timeout. */
  datatype PollOutcome = Ready(error: bool, readable: bool) | TimedOut | PollInterrupted | PollFailed

  /** One return of `recv`.  `written` says whether the file took the bytes; `polls` is what
      the following wait for readability sees. */
  datatype RecvOutcome =
    | Data(bytes: Chunk, written: bool)
    | Eof
    | Interrupted
    | WouldBlock(polls: seq<PollOutcome>)
    | Failed

  datatype Status = Success | Failure | InProgress

  datatype Received = Received(status: Status, output: seq<Byte>)

  // ---------------------------------------------------------------------------
  // Specifications
  // ---------------------------------------------------------------------------

  /** Success: readable; Failure: poll failed or reported an error; InProgress: still waiting. */
  function Wait(polls: seq<PollOutcome>): Status {
    if polls == [] then InProgress
    else if polls[0].PollFailed? || (polls[0].Ready? && polls[0].error) then Failure
    else if polls[0].Ready? && polls[0].readable then Success
    else Wait(polls[1..])
  }

  /** The blocking client: it gives up on every error of `recv`. */
  function Blocking(trace: seq<RecvOutcome>, output: seq<Byte>): Received {
    if trace == [] then Received(InProgress, output)
    else match trace[0]
      case Data(bytes, true) => Blocking(trace[1..], output + bytes)
      case Eof => Received(Success, output)
      case _ => Received(Failure, output)
  }

  /** The non-blocking client: it retries interrupted calls and waits when there is no data. */
  function NonBlocking(trace: seq<RecvOutcome>, output: seq<Byte>): Received {
    if trace == [] then Received(InProgress, output)
    else match trace[0]
      case Data(bytes, true) => NonBlocking(trace[1..], output + bytes)
      case Data(_, false) => Received(Failure, output)
      case Eof => Received(Success, output)
      case Interrupted => NonBlocking(trace[1..], output)
      case WouldBlock(polls) =>
        if Wait(polls) == Success then NonBlocking(trace[1..], output) else Received(Wait(polls), output)
      case Failed => Received(Failure, output)
  }

  /** The benchmark receivers over `recv`: they retry interrupted calls, count, and write
      nothing.  The non-blocking one waits for data, the blocking one gives up. */
  function Counting(trace: seq<RecvOutcome>, waits: bool, total: nat): (Status, nat) {
    if trace == [] then (InProgress, total)
    else match trace[0]
      case Data(bytes, _) => Counting(trace[1..], waits, total + |bytes|)
      case Eof => (if total > 0 then Success else Failure, total)
      case Interrupted => Counting(trace[1..], waits, total)
      case WouldBlock(polls) =>
        if !waits then (Failure, total)
        else if Wait(polls) == Success then Counting(trace[1..], waits, total)
        else (Wait(polls), total)
      case Failed => (Failure, total)
  }

  /** One return of a read of the asio and corosio sockets. */
  datatype ReadError = NoError | EndOfFile | ConnectionReset | OtherError

  datatype ReadOutcome = Read(bytes: seq<Byte>, error: ReadError)

  /** The bytes of the reads up to the first that brings none. */
  function Taken(trace: seq<ReadOutcome>): seq<Byte> {
    if trace == [] || trace[0].bytes == [] then [] else trace[0].bytes + Taken(trace[1..])
  }

  /** The error of the first read that brings no bytes, when there is one. */
  function LastError(trace: seq<ReadOutcome>): (bool, ReadError) {
    if trace == [] then (false, NoError)
    else if trace[0].bytes == [] then (true, trace[0].error)
    else LastError(trace[1..])
  }

  /** The asio receiver succeeds after an end of file or a reset that follows some byte. */
  function AsioCounting(trace: seq<ReadOutcome>): (Status, nat) {
    var (ended, error) := LastError(trace);
    var status :=
      if !ended then InProgress else if error != OtherError && Taken(trace) != [] then Success else Failure;
    (status, |Taken(trace)|)
  }

  /** The corosio benchmark looks at nothing but the number of bytes once its receiver is done. */
  function CorosioCounting(trace: seq<ReadOutcome>): (Status, nat) {
    var (ended, _) := LastError(trace);
    (if !ended then InProgress else if Taken(trace) != [] then Success else Failure, |Taken(trace)|)
  }

  // ---------------------------------------------------------------------------
  // The loops
  // ---------------------------------------------------------------------------

  method WaitForReadable(polls: seq<PollOutcome>) returns (status: Status)
    ensures status == Wait(polls)
  {
    var i := 0;
    while i < |polls|
      invariant i <= |polls| && Wait(polls[i..]) == Wait(polls)
    {
      assert polls[i..][1..] == polls[i + 1..];
      match polls[i] {
        case Ready(error, readable) =>
          if error { return Failure; }
          if readable { return Success; }
        case PollFailed => return Failure;
        case PollInterrupted =>
        case TimedOut =>
      }
      i := i + 1;
    }
    return InProgress;
  }

  method ReceiveFile(trace: seq<RecvOutcome>) returns (status: Status, output: seq<Byte>)
    ensures Received(status, output) == Blocking(trace, [])
  {
    output := [];
    var i := 0;
    while i < |trace|
      invariant i <= |trace| && Blocking(trace[i..], output) == Blocking(trace, [])
    {
      assert trace[i..][1..] == trace[i + 1..];
      if trace[i].Data? {
        if !trace[i].written { return Failure, output; }
        output := output + trace[i].bytes;
        i := i + 1;
        continue;
      }
      if trace[i].Eof? { return Success, output; }
      return Failure, output;
    }
    return InProgress, output;
  }

  method ReceiveFileNonBlocking(trace: seq<RecvOutcome>) returns (status: Status, output: seq<Byte>)
    ensures Received(status, output) == NonBlocking(trace, [])
  {
    output := [];
    var i := 0;
    while i < |trace|
      invariant i <= |trace| && NonBlocking(trace[i..], output) == NonBlocking(trace, [])
    {
      assert trace[i..][1..] == trace[i + 1..];
      match trace[i] {
        case Data(bytes, written) =>
          if !written { return Failure, output; }
          output := output + bytes;
        case Eof => return Success, output;
        case Interrupted =>
        case WouldBlock(polls) =>
          var ready := WaitForReadable(polls);
          if ready != Success { return ready, output; }
        case Failed => return Failure, output;
      }
      i := i + 1;
    }
    return InProgress, output;
  }

  method ReceiveData(trace: seq<RecvOutcome>, waits: bool) returns (status: Status, total: nat)
    ensures (status, total) == Counting(trace, waits, 0)
  {
    total := 0;
    var i := 0;
    while i < |trace|
      invariant i <= |trace| && Counting(trace[i..], waits, total) == Counting(trace, waits, 0)
    {
      assert trace[i..][1..] == trace[i + 1..];
      match trace[i] {
        case Data(bytes, _) => total := total + |bytes|;
        case Eof => return if total > 0 then Success else Failure, total;
        case Interrupted =>
        case WouldBlock(polls) =>
          if !waits { return Failure, total; }
          var ready := WaitForReadable(polls);
          if ready != Success { return ready, total; }
        case Failed => return Failure, total;
      }
      i := i + 1;
    }
    return InProgress, total;
  }

  method AsioReceiveData(trace: seq<ReadOutcome>) returns (status: Status, total: nat)
    ensures (status, total) == AsioCounting(trace)
  {
    total := 0;
    var i := 0;
    while i < |trace|
      invariant i <= |trace| && LastError(trace[i..]) == LastError(trace)
      invariant total + |Taken(trace[i..])| == |Taken(trace)|
    {
      assert trace[i..][1..] == trace[i + 1..];
      var n := |trace[i].bytes|;
      if n > 0 {
        total := total + n;
        i := i + 1;
        continue;
      }
      if trace[i].error == EndOfFile || trace[i].error == ConnectionReset { break; }
      if trace[i].error != NoError { return Failure, total; }
      if n == 0 { break; }
    }
    if i == |trace| { return InProgress, total; }
    return if total > 0 then Success else Failure, total;
  }

  /** The receiver, whose own result is ignored, and the check of the benchmark. */
  method CorosioReceiveData(trace: seq<ReadOutcome>) returns (status: Status, total: nat)
    ensures (status, total) == CorosioCounting(trace)
  {
    total := 0;
    var i := 0;
    while i < |trace|
      invariant i <= |trace| && LastError(trace[i..]) == LastError(trace)
      invariant total + |Taken(trace[i..])| == |Taken(trace)|
    {
      assert trace[i..][1..] == trace[i + 1..];
      var n := |trace[i].bytes|;
      if n > 0 {
        total := total + n;
        i := i + 1;
        continue;
      }
      if trace[i].error == NoError { break; }
      if total > 0 && (trace[i].error == EndOfFile || trace[i].error == ConnectionReset) { break; }
      return if total > 0 then Success else Failure, total;
    }
    if i == |trace| { return InProgress, total; }
    return if total > 0 then Success else Failure, total;
  }

  // ---------------------------------------------------------------------------
  // What decides a wait
  // ---------------------------------------------------------------------------

  /** A poll after which the wait goes on: timed out, interrupted, or ready with neither flag. */
  predicate IsUndecided(p: PollOutcome) {
    p == TimedOut || p == PollInterrupted || p == Ready(false, false)
  }

  /** The first poll that is not of that kind decides: a failed poll or an error flag, with data
      or without, is a failure, and data alone a success. */
  lemma {:induction false} FirstDecides(before: seq<PollOutcome>, p: PollOutcome, rest: seq<PollOutcome>)
    requires forall i :: 0 <= i < |before| ==> IsUndecided(before[i])
    ensures Wait(before) == InProgress
    ensures !IsUndecided(p) ==> Wait(before + [p] + rest) == if p == Ready(false, true) then Success else Failure
  {
    var polls := before + [p] + rest;
    if before == [] {
      assert polls == [p] + rest;
    } else {
      FirstDecides(before[1..], p, rest);
      assert polls[1..] == before[1..] + [p] + rest;
    }
  }

  // ---------------------------------------------------------------------------
  // What decides a download
  // ---------------------------------------------------------------------------

  /** The bytes of the calls that bring some, in order. */
  function DataOf(trace: seq<RecvOutcome>): seq<Byte> {
    if trace == [] then [] else (if trace[0].Data? then trace[0].bytes else []) + DataOf(trace[1..])
  }

  /** After these outcomes the clients call `recv` again; the blocking one only after data. */
  predicate GoesOn(o: RecvOutcome) {
    (o.Data? && o.written) || IsStutter(o)
  }

  /** The first other outcome decides: the end of the stream is a success, a failed call, write
      or wait a failure, and a wait that goes on nothing yet.  The file is what came before. */
  lemma {:induction false} OutcomeDecides(before: seq<RecvOutcome>, o: RecvOutcome, rest: seq<RecvOutcome>,
                                          output: seq<Byte>)
    requires forall i :: 0 <= i < |before| ==> GoesOn(before[i])
    ensures NonBlocking(before, output) == Received(InProgress, output + DataOf(before))
    ensures !GoesOn(o) ==>
              NonBlocking(before + [o] + rest, output) ==
              Received(if o.Eof? then Success else if IsStuck(o) then InProgress else Failure,
                       output + DataOf(before))
  {
    hide Wait;
    var trace := before + [o] + rest;
    if before == [] {
      assert trace == [o] + rest && output + DataOf(before) == output;
    } else {
      var next := if before[0].Data? then output + before[0].bytes else output;
      OutcomeDecides(before[1..], o, rest, next);
      assert trace[1..] == before[1..] + [o] + rest;
      assert output + DataOf(before) == next + DataOf(before[1..]);
    }
  }

  /** For the blocking client everything but data that the file takes and the end of the stream
      is a failure. */
  lemma {:induction false} BlockingDecides(before: seq<RecvOutcome>, o: RecvOutcome, rest: seq<RecvOutcome>,
                                           output: seq<Byte>)
    requires forall i :: 0 <= i < |before| ==> before[i].Data? && before[i].written
    ensures Blocking(before, output) == Received(InProgress, output + DataOf(before))
    ensures !(o.Data? && o.written) ==>
              Blocking(before + [o] + rest, output) ==
              Received(if o.Eof? then Success else Failure, output + DataOf(before))
  {
    var trace := before + [o] + rest;
    if before == [] {
      assert trace == [o] + rest && output + DataOf(before) == output;
    } else {
      BlockingDecides(before[1..], o, rest, output + before[0].bytes);
      assert trace[1..] == before[1..] + [o] + rest;
      assert output + DataOf(before) == output + before[0].bytes + DataOf(before[1..]);
    }
  }

  /** The benchmarks: they go on after data, an interrupted call and, the one that waits, after
      a wait that ends with data.  Only the end of the stream after some byte is a success. */
  lemma {:induction false} CountDecides(before: seq<RecvOutcome>, o: RecvOutcome, rest: seq<RecvOutcome>, waits: bool,
                                        total: nat)
    requires forall i :: 0 <= i < |before| ==>
                           before[i].Data? || before[i].Interrupted? || (waits && IsStutter(before[i]))
    ensures Counting(before, waits, total) == (InProgress, total + |DataOf(before)|)
    ensures o.Eof? || o.Failed? || (o.WouldBlock? && !(waits && IsStutter(o))) ==>
              Counting(before + [o] + rest, waits, total) ==
              (if o.Eof? && total + |DataOf(before)| > 0 then Success else if waits && IsStuck(o) then InProgress
               else Failure, total + |DataOf(before)|)
  {
    hide Wait;
    var trace := before + [o] + rest;
    if before == [] {
      assert trace == [o] + rest;
    } else {
      CountDecides(before[1..], o, rest, waits, total + if before[0].Data? then |before[0].bytes| else 0);
      assert trace[1..] == before[1..] + [o] + rest;
    }
  }

  // ---------------------------------------------------------------------------
  // Retries leave no mark
  // ---------------------------------------------------------------------------

  /** Interrupted calls, and waits that end with readable data. */
  predicate IsStutter(o: RecvOutcome) {
    o.Interrupted? || (o.WouldBlock? && Wait(o.polls) == Success)
  }

  /** A wait that has not ended yet. */
  predicate IsStuck(o: RecvOutcome) {
    o.WouldBlock? && Wait(o.polls) == InProgress
  }

  /** A wait that fails, without the polls before the one that fails. */
  const FAILED_WAIT := WouldBlock([PollFailed])

  /** The trace without its retries, up to the call or wait it is in. */
  function WithoutRetries(trace: seq<RecvOutcome>): seq<RecvOutcome> {
    if trace == [] || IsStuck(trace[0]) then []
    else if IsStutter(trace[0]) then WithoutRetries(trace[1..])
    else [if trace[0].WouldBlock? then FAILED_WAIT else trace[0]] + WithoutRetries(trace[1..])
  }

  /** Deleting the retries changes neither the file nor the result, and what is left makes
      the blocking client write the same file with the same result. */
  lemma {:induction false} RetriesLeaveNoMark(trace: seq<RecvOutcome>, output: seq<Byte>)
    ensures NonBlocking(WithoutRetries(trace), output) == NonBlocking(trace, output)
    ensures Blocking(WithoutRetries(trace), output) == NonBlocking(trace, output)
  {
    if trace != [] {
      var kept := WithoutRetries(trace);
      var next := match trace[0] case Data(bytes, true) => output + bytes case _ => output;
      RetriesLeaveNoMark(trace[1..], next);
      assert kept != [] && !IsStutter(trace[0]) ==> kept[1..] == WithoutRetries(trace[1..]);
    }
  }

  /** Without write errors, the benchmark counts the bytes the client would write, and succeeds
      when the client would, unless there was no byte at all. */
  lemma {:induction false} CountingCounts(trace: seq<RecvOutcome>, waits: bool, output: seq<Byte>)
    requires forall i :: 0 <= i < |trace| ==> (trace[i].WouldBlock? ==> waits) && (trace[i].Data? ==> trace[i].written)
    ensures var r := NonBlocking(trace, output);
            var status := if r.status == Success && r.output == [] then Failure else r.status;
            Counting(trace, waits, |output|) == (status, |r.output|)
  {
    if trace != [] {
      CountingCounts(trace[1..], waits, if trace[0].Data? then output + trace[0].bytes else output);
    }
  }
}
