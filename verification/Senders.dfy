/** The five send loops and the one sender they all refine.

    A transport decides what each send does; it is given the number of the send and how
    many bytes are offered.  Every loop is proved to put on the wire exactly what the
    abstract sender does on the attempts the transport made of it.
 */
module Senders {
  import opened FileServer
  import opened Grouping
  import opened WorkerLoop

  /** What one send came to: bytes reported as sent, nothing yet, or the end of the sender,
      with the bytes that had still gone out. */
  datatype Attempt = Took(n: nat) | Retry | Halt(n: nat)

  datatype End = Complete | Stopped | Unfinished

  datatype Sent = Sent(wire: seq<Byte>, end: End)

  // ---------------------------------------------------------------------------
  // The abstract sender
  // ---------------------------------------------------------------------------

  /** The attempts of a sender with `left` bytes to go: each is offered something, none moves
      more than that, and none follows a halt or the last byte. */
  predicate Fits(left: nat, attempts: seq<Attempt>)
    decreases attempts
  {
    attempts == [] ||
    (left > 0 &&
     match attempts[0]
     case Took(n) => 0 < n <= left && Fits(left - n, attempts[1..])
     case Retry => Fits(left, attempts[1..])
     case Halt(n) => n <= left && |attempts| == 1)
  }

  function Deliver(payload: seq<Byte>, attempts: seq<Attempt>): Sent
    requires Fits(|payload|, attempts)
    decreases attempts
  {
    if payload == [] then Sent([], Complete)
    else if attempts == [] then Sent([], Unfinished)
    else match attempts[0]
      case Took(n) =>
        var rest := Deliver(payload[n..], attempts[1..]);
        Sent(payload[..n] + rest.wire, rest.end)
      case Retry => Deliver(payload, attempts[1..])
      case Halt(n) => Sent(payload[..n], Stopped)
  }

  predicate NoHalt(attempts: seq<Attempt>) {
    forall i :: 0 <= i < |attempts| ==> !attempts[i].Halt?
  }

  /** Bytes reported as sent. */
  function Moved(attempts: seq<Attempt>): nat {
    if attempts == [] then 0
    else Moved(attempts[..|attempts| - 1]) + (if attempts[|attempts| - 1].Took? then attempts[|attempts| - 1].n else 0)
  }

  lemma {:induction false} MovedFirst(attempts: seq<Attempt>)
    requires attempts != []
    ensures Moved(attempts) == (if attempts[0].Took? then attempts[0].n else 0) + Moved(attempts[1..])
  {
    var last := |attempts| - 1;
    if last > 0 {
      MovedFirst(attempts[..last]);
      assert attempts[..last][1..] == attempts[1..][..last - 1];
    }
  }

  /** Whatever the transport does, the wire carries a prefix of the payload.  The sender
      completes, with the whole payload on the wire, exactly when the bytes reported as sent
      add up; it stops exactly at a halt; otherwise it is still on its way. */
  lemma {:induction false} WireIsPrefix(payload: seq<Byte>, attempts: seq<Attempt>)
    requires Fits(|payload|, attempts)
    ensures var r := Deliver(payload, attempts);
            && r.wire <= payload
            && (r.end == Complete ==> r.wire == payload)
            && (r.end == Complete <==> Moved(attempts) == |payload|)
            && (r.end == Stopped <==> !NoHalt(attempts))
            && (r.end == Unfinished ==> |r.wire| == Moved(attempts) < |payload|)
    decreases attempts
  {
    if attempts != [] {
      MovedFirst(attempts);
      assert NoHalt(attempts) <==> !attempts[0].Halt? && NoHalt(attempts[1..]) by {
        assert attempts == [attempts[0]] + attempts[1..];
      }
      match attempts[0] {
        case Took(n) =>
          WireIsPrefix(payload[n..], attempts[1..]);
          assert payload[..n] + payload[n..] == payload;
        case Retry => WireIsPrefix(payload, attempts[1..]);
        case Halt(_) =>
      }
    }
  }

  /** What one more attempt makes of a sender that has `sent` bytes out. */
  function Extended(payload: seq<Byte>, sent: nat, a: Attempt): Sent
    requires sent <= |payload|
        && (match a case Took(n) => n <= |payload| - sent case Retry => true case Halt(n) => n <= |payload| - sent)
  {
    match a
    case Took(n) => Sent(payload[..sent + n], if sent + n == |payload| then Complete else Unfinished)
    case Retry => Sent(payload[..sent], if sent == |payload| then Complete else Unfinished)
    case Halt(n) => Sent(payload[..sent + n], Stopped)
  }

  predicate CanFollow(left: nat, a: Attempt) {
    left > 0 && match a case Took(n) => 0 < n <= left case Retry => true case Halt(n) => n <= left
  }

  lemma {:induction false} FitsAppend(left: nat, attempts: seq<Attempt>, a: Attempt)
    requires Fits(left, attempts) && NoHalt(attempts) && Moved(attempts) <= left && CanFollow(left - Moved(attempts), a)
    ensures Fits(left, attempts + [a])
    ensures Moved(attempts + [a]) == Moved(attempts) + (if a.Took? then a.n else 0)
    decreases attempts
  {
    assert (attempts + [a])[..|attempts|] == attempts;
    if attempts != [] {
      MovedFirst(attempts);
      assert (attempts + [a])[1..] == attempts[1..] + [a];
      FitsAppend(left - (if attempts[0].Took? then attempts[0].n else 0), attempts[1..], a);
    } else {
      assert [] + [a] == [a];
    }
  }

  lemma {:induction false} DeliverAppend(payload: seq<Byte>, attempts: seq<Attempt>, a: Attempt)
    requires Fits(|payload|, attempts) && NoHalt(attempts) && Moved(attempts) <= |payload|
        && CanFollow(|payload| - Moved(attempts), a)
    ensures Fits(|payload|, attempts + [a])
    ensures Deliver(payload, attempts + [a]) == Extended(payload, Moved(attempts), a)
    decreases attempts
  {
    FitsAppend(|payload|, attempts, a);
    if attempts == [] {
      assert [] + [a] == [a];
      DeliverOne(payload, a);
    } else {
      MovedFirst(attempts);
      var n := if attempts[0].Took? then attempts[0].n else 0;
      var rest := attempts[1..];
      assert (attempts + [a])[1..] == rest + [a] && (attempts + [a])[0] == attempts[0];
      DeliverAppend(payload[n..], rest, a);
      assert payload[n..] == payload || attempts[0].Took?;
      ExtendedShift(payload, n, Moved(rest), a);
    }
  }

  lemma DeliverOne(payload: seq<Byte>, a: Attempt)
    requires CanFollow(|payload|, a)
    ensures Fits(|payload|, [a]) && Deliver(payload, [a]) == Extended(payload, 0, a)
  {
  }

  lemma ExtendedShift(payload: seq<Byte>, n: nat, sent: nat, a: Attempt)
    requires n + sent <= |payload| && CanFollow(|payload| - n - sent, a)
    ensures var r := Extended(payload[n..], sent, a);
            Extended(payload, n + sent, a) == Sent(payload[..n] + r.wire, r.end)
  {
  }

  // ---------------------------------------------------------------------------
  // The loops
  // ---------------------------------------------------------------------------

  /** Everything sent so far was reported, and that makes `sent` bytes. */
  ghost predicate Underway(payload: seq<Byte>, attempts: seq<Attempt>, sent: nat, wire: seq<Byte>) {
    && Fits(|payload|, attempts) && NoHalt(attempts)
    && Moved(attempts) == sent <= |payload|
    && wire == payload[..sent]
    && Deliver(payload, attempts) == Sent(wire, if sent == |payload| then Complete else Unfinished)
  }

  /** `attempts` is what the transport `did` of the sends it was offered. */
  ghost predicate Recorded(left: nat, attempts: seq<Attempt>, did: (nat, nat) -> Attempt) {
    forall i :: 0 <= i < |attempts| ==>
        Moved(attempts[..i]) <= left && attempts[i] == did(i, left - Moved(attempts[..i]))
  }

  /** A sender that got this `wire` and `end` out of a transport is the abstract sender on
      the attempts that the transport made. */
  ghost predicate Refines(payload: seq<Byte>, attempts: seq<Attempt>, did: (nat, nat) -> Attempt, wire: seq<Byte>,
                          end: End)
  {
    && Fits(|payload|, attempts)
    && Recorded(|payload|, attempts, did)
    && Deliver(payload, attempts) == Sent(wire, end)
  }

  lemma {:induction false} SameAttempts(left: nat, a: seq<Attempt>, b: seq<Attempt>, did: (nat, nat) -> Attempt, i: nat)
    requires Recorded(left, a, did) && Recorded(left, b, did) && i <= |a| && i <= |b|
    ensures a[..i] == b[..i]
  {
    hide Moved;
    if i > 0 {
      SameAttempts(left, a, b, did, i - 1);
      assert a[i - 1] == b[i - 1];
      assert a[..i] == a[..i - 1] + [a[i - 1]] && b[..i] == b[..i - 1] + [b[i - 1]];
    }
  }

  /** What can be continued has not ended. */
  lemma {:induction false} Continued(left: nat, a: seq<Attempt>, b: seq<Attempt>)
    requires Fits(left, a + b) && b != []
    ensures Fits(left, a) && NoHalt(a) && Moved(a) < left
    decreases a
  {
    if a == [] {
      assert a + b == b;
    } else {
      assert (a + b)[0] == a[0] && (a + b)[1..] == a[1..] + b;
      Continued(left - if a[0].Took? then a[0].n else 0, a[1..], b);
      MovedFirst(a);
    }
  }

  /** No halt left bytes that were not reported. */
  ghost predicate QuietHalts(attempts: seq<Attempt>) {
    forall i :: 0 <= i < |attempts| && attempts[i].Halt? ==> attempts[i].n == 0
  }

  /** Then the wire carries the whole payload exactly if the sender completed. */
  lemma {:induction false} QuietSender(payload: seq<Byte>, attempts: seq<Attempt>)
    requires Fits(|payload|, attempts) && QuietHalts(attempts)
    ensures Deliver(payload, attempts).wire == payload <==> Deliver(payload, attempts).end == Complete
    decreases attempts
  {
    if payload != [] && attempts != [] && !attempts[0].Halt? {
      var n := if attempts[0].Took? then attempts[0].n else 0;
      var rest := Deliver(payload[n..], attempts[1..]);
      QuietSender(payload[n..], attempts[1..]);
      assert payload[..n] + payload[n..] == payload;
      if payload[..n] + rest.wire == payload { Cancel(payload[..n], rest.wire, payload[n..]); }
      assert attempts[0].Retry? ==> payload[n..] == payload;
    }
  }

  /** No send of a payload of `size` bytes comes to an error or to zero progress.  Every send
      is offered something, so what the transport makes of an empty offer does not matter. */
  ghost predicate NeverFails(size: nat, did: (nat, nat) -> Attempt) {
    forall i: nat, k: nat :: 0 < k <= size ==> !did(i, k).Halt?
  }

  /** Every send is offered something. */
  lemma Offered(left: nat, attempts: seq<Attempt>, i: nat)
    requires Fits(left, attempts) && i < |attempts|
    ensures Moved(attempts[..i]) < left
  {
    assert attempts == attempts[..i] + attempts[i..];
    Continued(left, attempts[..i], attempts[i..]);
  }

  /** The senders agree: whatever the transport and however it cuts the stream, a sender that
      has ended put a prefix of the payload on its wire, and completed, with all of it on the
      wire, exactly when no send of its came to an error or to zero progress. */
  lemma EndedSender(payload: seq<Byte>, attempts: seq<Attempt>, did: (nat, nat) -> Attempt, wire: seq<Byte>, end: End)
    requires Refines(payload, attempts, did, wire, end) && end != Unfinished
    ensures wire <= payload
    ensures end == Complete <==> NoHalt(attempts)
    ensures end == Complete ==> wire == payload
    ensures NeverFails(|payload|, did) ==> end == Complete
  {
    hide Fits; hide Deliver; hide Moved;
    WireIsPrefix(payload, attempts);
    forall i | 0 <= i < |attempts|
      ensures Moved(attempts[..i]) < |payload|
    {
      Offered(|payload|, attempts, i);
    }
  }

  /** So any two of them put equal streams on their wires when no send fails. */
  lemma SameStream(payload: seq<Byte>, a: seq<Attempt>, did1: (nat, nat) -> Attempt, wire1: seq<Byte>, end1: End,
                   b: seq<Attempt>, did2: (nat, nat) -> Attempt, wire2: seq<Byte>, end2: End)
    requires Refines(payload, a, did1, wire1, end1) && end1 != Unfinished && NeverFails(|payload|, did1)
    requires Refines(payload, b, did2, wire2, end2) && end2 != Unfinished && NeverFails(|payload|, did2)
    ensures wire1 == wire2 == payload
  {
    EndedSender(payload, a, did1, wire1, end1);
    EndedSender(payload, b, did2, wire2, end2);
  }

  /** A transport determines the outcome: `Refines` leaves an ended sender no choice. */
  lemma OneOutcome(payload: seq<Byte>, did: (nat, nat) -> Attempt, a: seq<Attempt>, wire1: seq<Byte>, end1: End,
                   b: seq<Attempt>, wire2: seq<Byte>, end2: End)
    requires Refines(payload, a, did, wire1, end1) && end1 != Unfinished
    requires Refines(payload, b, did, wire2, end2) && end2 != Unfinished
    ensures a == b && wire1 == wire2 && end1 == end2
  {
    hide Fits; hide Deliver; hide Moved; hide Recorded;
    var n := if |a| <= |b| then |a| else |b|;
    SameAttempts(|payload|, a, b, did, n);
    WireIsPrefix(payload, a);
    WireIsPrefix(payload, b);
    assert a == a[..n] + a[n..] && b == b[..n] + b[n..];
    assert a[..|a|] == a && b[..|b|] == b;
    if |a| > n { Continued(|payload|, a[..n], a[n..]); }
    if |b| > n { Continued(|payload|, b[..n], b[n..]); }
  }

  /** The same in the middle of a loop. */
  ghost predicate InLoop(payload: seq<Byte>, attempts: seq<Attempt>, did: (nat, nat) -> Attempt, sent: nat,
                         wire: seq<Byte>)
  {
    Underway(payload, attempts, sent, wire) && Recorded(|payload|, attempts, did)
  }

  lemma Begin(payload: seq<Byte>, did: (nat, nat) -> Attempt)
    ensures InLoop(payload, [], did, 0, [])
  {
  }

  lemma LeaveLoop(payload: seq<Byte>, attempts: seq<Attempt>, did: (nat, nat) -> Attempt, sent: nat, wire: seq<Byte>)
    requires InLoop(payload, attempts, did, sent, wire)
    ensures sent <= |payload|
    ensures Refines(payload, attempts, did, wire, if sent == |payload| then Complete else Unfinished)
  {
  }

  /** One round of a loop, for the attempt `a` that its send came to. */
  lemma {:induction false} Round(payload: seq<Byte>, attempts: seq<Attempt>, did: (nat, nat) -> Attempt, sent: nat,
                                 wire: seq<Byte>, a: Attempt)
    requires InLoop(payload, attempts, did, sent, wire) && sent < |payload|
    requires a == did(|attempts|, |payload| - sent) && CanFollow(|payload| - sent, a)
    ensures a.Took? ==> InLoop(payload, attempts + [a], did, sent + a.n, wire + payload[sent..sent + a.n])
    ensures a.Retry? ==> InLoop(payload, attempts + [a], did, sent, wire)
    ensures a.Halt? ==> Refines(payload, attempts + [a], did, wire + payload[sent..sent + a.n], Stopped)
    ensures a == Halt(0) ==> Refines(payload, attempts + [a], did, wire, Stopped)
    ensures Moved(attempts + [a]) == sent + if a.Took? then a.n else 0
  {
    hide Fits; hide Deliver; hide Moved; hide Recorded;
    StreamAppend(payload, attempts, sent, wire, a);
    RecordedAppend(|payload|, attempts, did, a);
  }

  lemma StreamAppend(payload: seq<Byte>, attempts: seq<Attempt>, sent: nat, wire: seq<Byte>, a: Attempt)
    requires Underway(payload, attempts, sent, wire) && CanFollow(|payload| - sent, a)
    ensures a.Took? ==> Underway(payload, attempts + [a], sent + a.n, wire + payload[sent..sent + a.n])
    ensures a.Retry? ==> Underway(payload, attempts + [a], sent, wire)
    ensures a.Halt? ==>
        && Fits(|payload|, attempts + [a])
        && Deliver(payload, attempts + [a]) == Sent(wire + payload[sent..sent + a.n], Stopped)
    ensures a == Halt(0) ==> wire + payload[sent..sent + a.n] == wire
    ensures Moved(attempts + [a]) == sent + if a.Took? then a.n else 0
  {
    hide Fits; hide Deliver; hide Moved; hide NoHalt; hide Extended;
    FitsAppend(|payload|, attempts, a);
    DeliverAppend(payload, attempts, a);
    if !a.Halt? { NoHaltAppend(attempts, a); }
    ExtendedIs(payload, sent, a);
  }

  lemma ExtendedIs(payload: seq<Byte>, sent: nat, a: Attempt)
    requires sent <= |payload| && CanFollow(|payload| - sent, a)
    ensures !a.Retry? ==>
        Extended(payload, sent, a).wire == payload[..sent] + payload[sent..sent + a.n] == payload[..sent + a.n]
    ensures a.Took? ==> Extended(payload, sent, a).end == if sent + a.n == |payload| then Complete else Unfinished
    ensures a.Retry? ==> Extended(payload, sent, a) == Sent(payload[..sent], Unfinished)
    ensures a.Halt? ==> Extended(payload, sent, a).end == Stopped
    ensures a == Halt(0) ==> payload[..sent] + payload[sent..sent + a.n] == payload[..sent]
  {
  }

  lemma NoHaltAppend(attempts: seq<Attempt>, a: Attempt)
    requires NoHalt(attempts) && !a.Halt?
    ensures NoHalt(attempts + [a])
  {
  }

  lemma RecordedAppend(left: nat, attempts: seq<Attempt>, did: (nat, nat) -> Attempt, a: Attempt)
    requires Recorded(left, attempts, did) && Moved(attempts) <= left && a == did(|attempts|, left - Moved(attempts))
    ensures Recorded(left, attempts + [a], did)
  {
    hide Moved;
    var longer := attempts + [a];
    forall i | 0 <= i < |longer|
      ensures Moved(longer[..i]) <= left && longer[i] == did(i, left - Moved(longer[..i]))
    {
      assert longer[..i] == attempts[..i];
      assert attempts[..|attempts|] == attempts;
    }
  }

  /** epoll server: one step per EPOLLOUT; it may still wait for the next one. */
  function StepAttempt(r: Reply): Attempt {
    if r.ret > 0 then Took(r.ret)
    else if r.ret == 0 then Halt(0)
    else if r.errno == EINTR || r.errno == EAGAIN then Retry
    else Halt(0)
  }

  ghost function Steps(send: (nat, nat) -> Reply): (nat, nat) -> Attempt {
    (i: nat, k: nat) => StepAttempt(send(i, k))
  }

  /** The send steps of one client over `events` reports of EPOLLOUT. */
  method EpollSend(payload: seq<Byte>, events: nat, send: (nat, nat) -> Reply)
    returns (wire: seq<Byte>, end: End, ghost attempts: seq<Attempt>)
    requires forall i: nat, k: nat :: send(i, k).ret <= k
    ensures Refines(payload, attempts, Steps(send), wire, end)
    ensures |attempts| <= events && (end == Unfinished ==> |attempts| == events)
    ensures wire <= payload && (end == Complete <==> wire == payload)
  {
    hide Fits; hide Deliver; hide Moved; hide Recorded;
    wire, end, attempts := [], Unfinished, [];
    ghost var did := Steps(send);
    var sent: nat := 0;
    Begin(payload, did);
    LeaveLoop(payload, attempts, did, sent, wire);
    if |payload| == 0 { return wire, Complete, attempts; }
    for event := 0 to events
      invariant InLoop(payload, attempts, did, sent, wire) && sent < |payload| && end == Unfinished
      invariant |attempts| == event
    {
      var r := send(event, |payload| - sent);
      ghost var a := StepAttempt(r);
      Round(payload, attempts, did, sent, wire, a);
      attempts := attempts + [a];
      var status := SendStatus(sent, |payload|, r);
      if r.ret > 0 {
        wire := wire + payload[sent..sent + r.ret];
        sent := sent + r.ret;
      }
      if status == -1 { return wire, Stopped, attempts; }
      LeaveLoop(payload, attempts, did, sent, wire);
      if status == 1 { return wire, Complete, attempts; }
    }
  }

  /** asio server: a write reports bytes, or throws, which `serve_client` swallows. */
  datatype WriteSome = Wrote(n: nat) | Threw

  function WriteAttempt(r: WriteSome): Attempt {
    if r.Threw? || r.n == 0 then Halt(0) else Took(r.n)
  }

  ghost function Writes(write: (nat, nat) -> WriteSome): (nat, nat) -> Attempt {
    (i: nat, k: nat) => WriteAttempt(write(i, k))
  }

  method AsioSend(payload: seq<Byte>, write: (nat, nat) -> WriteSome)
    returns (wire: seq<Byte>, end: End, ghost attempts: seq<Attempt>)
    requires forall i: nat, k: nat :: write(i, k).Wrote? ==> write(i, k).n <= k
    ensures Refines(payload, attempts, Writes(write), wire, end) && end != Unfinished
  {
    hide Fits; hide Deliver; hide Moved; hide Recorded;
    wire, end, attempts := [], Complete, [];
    ghost var did := Writes(write);
    var sent: nat, calls: nat := 0, 0;
    Begin(payload, did);
    while sent < |payload|
      invariant InLoop(payload, attempts, did, sent, wire) && end == Complete
      invariant |attempts| == calls
    {
      var r := write(calls, |payload| - sent);
      ghost var a := WriteAttempt(r);
      Round(payload, attempts, did, sent, wire, a);
      attempts := attempts + [a];
      calls := calls + 1;
      if r.Threw? { return wire, Stopped, attempts; }
      if r.n == 0 { end := Stopped; break; }
      wire := wire + payload[sent..sent + r.n];
      sent := sent + r.n;
    }
    if end == Complete { LeaveLoop(payload, attempts, did, sent, wire); }
  }

  /** corosio server: a write reports an error flag and bytes; the bytes that come with an
      error are on the wire but not counted. */
  datatype WriteResult = WriteResult(error: bool, n: nat)

  function CoroAttempt(r: WriteResult): Attempt {
    if r.error || r.n == 0 then Halt(r.n) else Took(r.n)
  }

  ghost function CoroWrites(write: (nat, nat) -> WriteResult): (nat, nat) -> Attempt {
    (i: nat, k: nat) => CoroAttempt(write(i, k))
  }

  method CorosioSend(payload: seq<Byte>, write: (nat, nat) -> WriteResult)
    returns (wire: seq<Byte>, end: End, ghost attempts: seq<Attempt>)
    requires forall i: nat, k: nat :: write(i, k).n <= k
    ensures Refines(payload, attempts, CoroWrites(write), wire, end) && end != Unfinished
  {
    hide Fits; hide Deliver; hide Moved; hide Recorded;
    wire, end, attempts := [], Complete, [];
    ghost var did := CoroWrites(write);
    var sent: nat, calls: nat := 0, 0;
    Begin(payload, did);
    while sent < |payload|
      invariant InLoop(payload, attempts, did, sent, wire) && end == Complete
      invariant |attempts| == calls
    {
      var r := write(calls, |payload| - sent);
      ghost var a := CoroAttempt(r);
      Round(payload, attempts, did, sent, wire, a);
      attempts := attempts + [a];
      calls := calls + 1;
      wire := wire + payload[sent..sent + r.n];
      if r.error || r.n == 0 { end := Stopped; break; }
      sent := sent + r.n;
    }
    if end == Complete { LeaveLoop(payload, attempts, did, sent, wire); }
  }

  /** async-berkeley server: a callback that adds to a shared offset and starts the next send. */
  class WriteState {
    const payload: seq<Byte>
    var sent: nat
    var wire: seq<Byte>
    ghost var attempts: seq<Attempt>

    constructor (payload: seq<Byte>)
      ensures this.payload == payload && sent == 0 && wire == [] && attempts == []
    {
      this.payload := payload;
      sent, wire, attempts := 0, [], [];
    }
  }

  /** The value given to the callback, or an error. */
  datatype SendMessage = Value(bytes: int) | Error

  function CallbackAttempt(r: SendMessage): Attempt {
    if r.Error? || r.bytes <= 0 then Halt(0) else Took(r.bytes)
  }

  ghost function Callbacks(sendmsg: (nat, nat) -> SendMessage): (nat, nat) -> Attempt {
    (i: nat, k: nat) => CallbackAttempt(sendmsg(i, k))
  }

  /** The `calls`-th send; its callback runs the next one. */
  method SendFile(state: WriteState, sendmsg: (nat, nat) -> SendMessage, calls: nat) returns (end: End)
    requires forall i: nat, k: nat :: sendmsg(i, k).Value? ==> sendmsg(i, k).bytes <= k
    requires InLoop(state.payload, state.attempts, Callbacks(sendmsg), state.sent, state.wire)
        && calls == |state.attempts|
    modifies state
    ensures Refines(state.payload, state.attempts, Callbacks(sendmsg), state.wire, end) && end != Unfinished
    ensures state.sent == Moved(state.attempts)
    decreases |state.payload| - state.sent
  {
    hide Fits; hide Deliver; hide Moved; hide Recorded;
    ghost var did := Callbacks(sendmsg);
    LeaveLoop(state.payload, state.attempts, did, state.sent, state.wire);
    if state.sent >= |state.payload| { return Complete; }
    var remaining := |state.payload| - state.sent;
    var r := sendmsg(calls, remaining);
    ghost var a := CallbackAttempt(r);
    Round(state.payload, state.attempts, did, state.sent, state.wire, a);
    state.attempts := state.attempts + [a];
    match r {
      case Value(bytes) =>
        if bytes <= 0 { return Stopped; }
        state.wire := state.wire + state.payload[state.sent..state.sent + bytes];
        state.sent := state.sent + bytes;
        end := SendFile(state, sendmsg, calls + 1);
      case Error => return Stopped;
    }
  }

  method ServeClient(payload: seq<Byte>, sendmsg: (nat, nat) -> SendMessage) returns (state: WriteState, end: End)
    requires forall i: nat, k: nat :: sendmsg(i, k).Value? ==> sendmsg(i, k).bytes <= k
    ensures fresh(state) && state.payload == payload
    ensures Refines(payload, state.attempts, Callbacks(sendmsg), state.wire, end) && end != Unfinished
  {
    state := new WriteState(payload);
    Begin(payload, Callbacks(sendmsg));
    end := SendFile(state, sendmsg, 0);
  }

  // ---------------------------------------------------------------------------
  // The fixed chunks of the TAPS server
  // ---------------------------------------------------------------------------

  const FALLBACK_SEND_CHUNK_SIZE: nat := 65536

  /** What reading tcp_wmem gives: no file, no three numbers, or three numbers. */
  datatype TcpWmem = CannotOpen | Unreadable | Values(minimum: nat, default: nat, maximum: nat)

  function ChunkSizeFrom(file: TcpWmem): (size: nat)
    ensures size > 0
  {
    if file.Values? && file.default != 0 then file.default else FALLBACK_SEND_CHUNK_SIZE
  }

  method ReadDefaultTcpSendBufferSize(file: TcpWmem) returns (size: nat)
    ensures size > 0 && size == ChunkSizeFrom(file)
    ensures size == if file.Values? && file.default != 0 then file.default else FALLBACK_SEND_CHUNK_SIZE
  {
    if file.CannotOpen? { return FALLBACK_SEND_CHUNK_SIZE; }
    var minimum, defaultValue, maximum: nat := 0, 0, 0;
    if file.Values? {
      minimum, defaultValue, maximum := file.minimum, file.default, file.maximum;
    }
    if !file.Values? || defaultValue == 0 { return FALLBACK_SEND_CHUNK_SIZE; }
    return defaultValue;
  }

  /** A send of a whole message succeeds, or fails with some of its bytes already out. */
  datatype MessageResult = Delivered | Failed(partial: nat)

  function MessageAttempt(r: MessageResult, length: nat): Attempt {
    match r
    case Delivered => Took(length)
    case Failed(partial) => Halt(partial)
  }

  function Min(a: nat, b: nat): nat {
    if a <= b then a else b
  }

  /** The payload cut into chunks: full ones, then what is left. */
  function Chunks(payload: seq<Byte>, chunk: nat): seq<seq<Byte>>
    requires chunk > 0
    decreases |payload|
  {
    if payload == [] then []
    else [payload[..Min(chunk, |payload|)]] + Chunks(payload[Min(chunk, |payload|)..], chunk)
  }

  function Concat(messages: seq<seq<Byte>>): seq<Byte> {
    if messages == [] then [] else messages[0] + Concat(messages[1..])
  }

  lemma Quotient(x: nat, c: nat, q: nat)
    requires c > 0 && c * q <= x < c * q + c
    ensures x / c == q
  {
    var d := x / c;
    assert x == c * d + x % c;
    if d < q { OneMore(c, d, q); }
    if q < d { OneMore(c, q, d); }
  }

  lemma OneMore(c: nat, a: nat, b: nat)
    requires a < b
    ensures c * a + c <= c * b
  {
    var d := b - a - 1;
    assert b == a + 1 + d;
    assert c * b == c * a + c + c * d;
  }

  lemma OneLonger(chunk: nat, k: nat)
    ensures chunk * (k + 1) == chunk * k + chunk
  {
  }

  /** Messages of which none is empty, and all but the last are full, that make up the
      payload. */
  lemma {:induction false} ChunksCutThePayload(payload: seq<Byte>, chunk: nat)
    requires chunk > 0
    ensures var m := Chunks(payload, chunk);
            && Concat(m) == payload
            && (forall i :: 0 <= i < |m| ==> 0 < |m[i]| <= chunk)
            && (forall i :: 0 <= i < |m| - 1 ==> |m[i]| == chunk)
            && |payload| <= chunk * |m| < |payload| + chunk
    decreases |payload|
  {
    if payload != [] {
      var n := Min(chunk, |payload|);
      var rest := Chunks(payload[n..], chunk);
      ChunksCutThePayload(payload[n..], chunk);
      assert Chunks(payload, chunk) == [payload[..n]] + rest && ([payload[..n]] + rest)[1..] == rest;
      assert payload[..n] + payload[n..] == payload;
      OneLonger(chunk, |rest|);
      assert n < chunk ==> payload[n..] == [] && rest == [];
    }
  }

  lemma NextChunk(payload: seq<Byte>, chunk: nat, sent: nat)
    requires chunk > 0 && sent < |payload|
    ensures var n := Min(chunk, |payload| - sent);
            Chunks(payload[sent..], chunk) == [payload[sent..sent + n]] + Chunks(payload[sent + n..], chunk)
  {
    var n := Min(chunk, |payload| - sent);
    assert payload[sent..][..n] == payload[sent..sent + n] && payload[sent..][n..] == payload[sent + n..];
  }

  lemma NoChunks(payload: seq<Byte>, chunk: nat)
    requires chunk > 0
    ensures payload == [] ==> Chunks(payload, chunk) == []
  {
  }

  /** There are ceil(L / chunk) of them. */
  lemma {:induction false} ChunkCount(payload: seq<Byte>, chunk: nat)
    requires chunk > 0
    ensures |Chunks(payload, chunk)| == (|payload| + chunk - 1) / chunk
  {
    ChunksCutThePayload(payload, chunk);
    Quotient(|payload| + chunk - 1, chunk, |Chunks(payload, chunk)|);
  }

  ghost function Messages(send: (nat, nat) -> MessageResult, chunkSize: nat): (nat, nat) -> Attempt {
    (i: nat, k: nat) => MessageAttempt(send(i, k), Min(chunkSize, k))
  }

  /** The chunk loop.  `messages` are the sends it makes. */
  method TapsSend(payload: seq<Byte>, chunkSize: nat, send: (nat, nat) -> MessageResult)
    returns (messages: seq<seq<Byte>>, wire: seq<Byte>, end: End, ghost attempts: seq<Attempt>)
    requires chunkSize > 0
    requires forall i: nat, k: nat :: send(i, k).Failed? ==> send(i, k).partial <= Min(chunkSize, k)
    ensures Refines(payload, attempts, Messages(send, chunkSize), wire, end) && end != Unfinished
    ensures messages <= Chunks(payload, chunkSize)
    ensures end == Complete ==> messages == Chunks(payload, chunkSize)
  {
    hide Fits; hide Deliver; hide Moved; hide Recorded; hide Chunks;
    messages, wire, end, attempts := [], [], Complete, [];
    ghost var did := Messages(send, chunkSize);
    var sent: nat := 0;
    Begin(payload, did);
    assert payload[0..] == payload;
    while sent < |payload|
      invariant InLoop(payload, attempts, did, sent, wire) && end == Complete
      invariant |attempts| == |messages|
      invariant messages + Chunks(payload[sent..], chunkSize) == Chunks(payload, chunkSize)
    {
      var toSend := Min(chunkSize, |payload| - sent);
      var r := send(|messages|, |payload| - sent);
      ghost var a := MessageAttempt(r, toSend);
      Round(payload, attempts, did, sent, wire, a);
      attempts := attempts + [a];
      NextChunk(payload, chunkSize, sent);
      messages := messages + [payload[sent..sent + toSend]];
      if r.Failed? {
        wire := wire + payload[sent..sent + r.partial];
        end := Stopped;
        break;
      }
      wire := wire + payload[sent..sent + toSend];
      sent := sent + toSend;
    }
    if end == Complete {
      LeaveLoop(payload, attempts, did, sent, wire);
      NoChunks(payload[sent..], chunkSize);
    }
  }

  // ---------------------------------------------------------------------------
  // All five on transports that do not fail
  // ---------------------------------------------------------------------------

  /** Each of the transports reports progress for every send that offers something: any part of
      what it is offered, cut in any way. */
  ghost predicate Working(size: nat, send: (nat, nat) -> Reply, write: (nat, nat) -> WriteSome,
                          writeSome: (nat, nat) -> WriteResult, sendmsg: (nat, nat) -> SendMessage,
                          message: (nat, nat) -> MessageResult)
  {
    forall i: nat, k: nat :: 0 < k <= size ==>
                               && (send(i, k).ret > 0 || (send(i, k).ret < 0 && send(i, k).errno != OTHER))
                               && write(i, k).Wrote? && write(i, k).n > 0
                               && !writeSome(i, k).error && writeSome(i, k).n > 0
                               && sendmsg(i, k).Value? && sendmsg(i, k).bytes > 0
                               && message(i, k).Delivered?
  }

  /** None of them takes more than it is offered. */
  ghost predicate Bounded(chunkSize: nat, send: (nat, nat) -> Reply, write: (nat, nat) -> WriteSome,
                          writeSome: (nat, nat) -> WriteResult, sendmsg: (nat, nat) -> SendMessage,
                          message: (nat, nat) -> MessageResult)
  {
    forall i: nat, k: nat ::
      && send(i, k).ret <= k
      && (write(i, k).Wrote? ==> write(i, k).n <= k)
      && writeSome(i, k).n <= k
      && (sendmsg(i, k).Value? ==> sendmsg(i, k).bytes <= k)
      && (message(i, k).Failed? ==> message(i, k).partial <= Min(chunkSize, k))
  }

  lemma WorkingNeverFails(size: nat, send: (nat, nat) -> Reply, write: (nat, nat) -> WriteSome,
                          writeSome: (nat, nat) -> WriteResult, sendmsg: (nat, nat) -> SendMessage,
                          message: (nat, nat) -> MessageResult, chunkSize: nat)
    requires Working(size, send, write, writeSome, sendmsg, message)
    ensures NeverFails(size, Steps(send)) && NeverFails(size, Writes(write)) && NeverFails(size, CoroWrites(writeSome))
    ensures NeverFails(size, Callbacks(sendmsg)) && NeverFails(size, Messages(message, chunkSize))
  {
  }

  /** Transports that work, within what they are offered, exist for every payload. */
  lemma WorkingExists(size: nat)
    returns (send: (nat, nat) -> Reply, write: (nat, nat) -> WriteSome, writeSome: (nat, nat) -> WriteResult,
             sendmsg: (nat, nat) -> SendMessage, message: (nat, nat) -> MessageResult)
    ensures Working(size, send, write, writeSome, sendmsg, message)
    ensures forall chunkSize: nat :: Bounded(chunkSize, send, write, writeSome, sendmsg, message)
  {
    send := (i: nat, k: nat) => Reply(k, OTHER, []);
    write := (i: nat, k: nat) => Wrote(k);
    writeSome := (i: nat, k: nat) => WriteResult(false, k);
    sendmsg := (i: nat, k: nat) => Value(k);
    message := (i: nat, k: nat) => Delivered;
  }

  /** The five loops on five transports that work: four put the whole payload on the wire, and
      so does the epoll server unless it still waits for an event. */
  method SendOverAll(payload: seq<Byte>, events: nat, chunkSize: nat, send: (nat, nat) -> Reply,
                     write: (nat, nat) -> WriteSome, writeSome: (nat, nat) -> WriteResult,
                     sendmsg: (nat, nat) -> SendMessage, message: (nat, nat) -> MessageResult)
    returns (epoll: seq<Byte>, epollEnd: End, asio: seq<Byte>, corosio: seq<Byte>, berkeley: seq<Byte>, taps: seq<Byte>)
    requires Working(|payload|, send, write, writeSome, sendmsg, message) && chunkSize > 0
    requires Bounded(chunkSize, send, write, writeSome, sendmsg, message)
    ensures asio == corosio == berkeley == taps == payload
    ensures epoll <= payload && (epollEnd != Unfinished ==> epoll == payload)
  {
    hide Refines; hide Working; hide NeverFails; hide Chunks;
    WorkingNeverFails(|payload|, send, write, writeSome, sendmsg, message, chunkSize);
    ghost var attempts;
    var end, state, messages;
    epoll, epollEnd, attempts := EpollSend(payload, events, send);
    if epollEnd != Unfinished { EndedSender(payload, attempts, Steps(send), epoll, epollEnd); }
    asio, end, attempts := AsioSend(payload, write);
    EndedSender(payload, attempts, Writes(write), asio, end);
    corosio, end, attempts := CorosioSend(payload, writeSome);
    EndedSender(payload, attempts, CoroWrites(writeSome), corosio, end);
    state, end := ServeClient(payload, sendmsg);
    berkeley := state.wire;
    EndedSender(payload, state.attempts, Callbacks(sendmsg), berkeley, end);
    messages, taps, end, attempts := TapsSend(payload, chunkSize, message);
    EndedSender(payload, attempts, Messages(message, chunkSize), taps, end);
  }

  /** A write of the asio server that throws or reports nothing is taken to leave no bytes on the
      wire. */
  lemma AsioHaltsAreQuiet(payload: seq<Byte>, attempts: seq<Attempt>, write: (nat, nat) -> WriteSome,
                          wire: seq<Byte>, end: End)
    requires Refines(payload, attempts, Writes(write), wire, end)
    ensures QuietHalts(attempts)
  {
    hide Moved;
    forall i | 0 <= i < |attempts| && attempts[i].Halt?
      ensures attempts[i].n == 0
    {
      assert attempts[i] == WriteAttempt(write(i, |payload| - Moved(attempts[..i])));
    }
  }

  // ---------------------------------------------------------------------------
  // What stops each of them
  // ---------------------------------------------------------------------------

  /** A sender stops exactly at the first send that its transport makes a halt of. */
  lemma StopsAtFirstFailure(payload: seq<Byte>, attempts: seq<Attempt>, did: (nat, nat) -> Attempt, wire: seq<Byte>,
                            end: End)
    requires Refines(payload, attempts, did, wire, end)
    ensures forall i :: 0 <= i < |attempts| ==> Moved(attempts[..i]) < |payload|
    ensures end == Stopped <==> attempts != [] &&
                                did(|attempts| - 1, |payload| - Moved(attempts[..|attempts| - 1])).Halt?
    ensures forall i :: 0 <= i < |attempts| - 1 ==> !did(i, |payload| - Moved(attempts[..i])).Halt?
  {
    hide Fits; hide Deliver; hide Moved;
    WireIsPrefix(payload, attempts);
    forall i | 0 <= i < |attempts|
      ensures Moved(attempts[..i]) < |payload|
      ensures i < |attempts| - 1 ==> !attempts[i].Halt?
    {
      Offered(|payload|, attempts, i);
      if i < |attempts| - 1 {
        assert attempts == attempts[..i + 1] + attempts[i + 1..];
        Continued(|payload|, attempts[..i + 1], attempts[i + 1..]);
        assert attempts[..i + 1][i] == attempts[i];
      }
    }
  }

  predicate StepFails(r: Reply) {
    r.ret == 0 || (r.ret < 0 && r.errno != EINTR && r.errno != EAGAIN)
  }

  /** In terms of the last reply of each transport: the epoll server stops at no bytes, or at an
      error other than an interrupt or a full buffer; asio at a throw or no bytes; corosio at an
      error, with bytes or without, or no bytes; the callback sender at an error or no bytes;
      TAPS at an error. */
  lemma LastReplyDecides(payload: seq<Byte>, attempts: seq<Attempt>, did: (nat, nat) -> Attempt, wire: seq<Byte>,
                         end: End, send: (nat, nat) -> Reply, write: (nat, nat) -> WriteSome,
                         writeSome: (nat, nat) -> WriteResult, sendmsg: (nat, nat) -> SendMessage,
                         message: (nat, nat) -> MessageResult, chunkSize: nat)
    requires Refines(payload, attempts, did, wire, end) && attempts != []
    ensures Moved(attempts[..|attempts| - 1]) < |payload|
    ensures var i: nat, k: nat := |attempts| - 1, |payload| - Moved(attempts[..|attempts| - 1]);
            && (did == Steps(send) ==> (end == Stopped <==> StepFails(send(i, k))))
            && (did == Writes(write) ==> (end == Stopped <==> write(i, k) in [Threw, Wrote(0)]))
            && (did == CoroWrites(writeSome) ==> (end == Stopped <==> writeSome(i, k).error || writeSome(i, k).n == 0))
            && (did == Callbacks(sendmsg) ==>
                  (end == Stopped <==> sendmsg(i, k).Error? || sendmsg(i, k).bytes <= 0))
            && (did == Messages(message, chunkSize) ==> (end == Stopped <==> message(i, k).Failed?))
  {
    hide Refines; hide Moved;
    StopsAtFirstFailure(payload, attempts, did, wire, end);
  }
}
