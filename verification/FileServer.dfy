/** N workers, one kernel and any number of clients.

    The state holds the descriptor table of the server process, the interest set of every
    worker, the queue of the listening socket and the byte streams.  One action is one
    system call of one worker with the reply it gets, one local step at the head of a
    batch loop, or one step of a client or of the network; a run is any interleaving.

    A resource in the descriptor table carries the number of the connection behind it and
    of the worker that obtained it.  No worker reads them: they tell apart two connections
    that had the same descriptor number at different times.
 */
module FileServer {
  import opened ClientTable
  import opened WorkerLoop

  newtype Byte = b: int | 0 <= b < 256

  /** Size of the receive buffer of the clients. */
  const BUFFER_SIZE: nat := 65536

  datatype Server = Server(listenFd: Fd, payload: seq<Byte>) {
    function Cfg(): Config {
      Config(listenFd, |payload|)
    }
  }

  datatype Resource =
    | Listener
    | Epoll(owner: nat)
    | Peer(conn: nat, owner: nat)

  datatype Phase =
    | Unconnected
    | Queued              // connected, not yet accepted
    | Open(fd: Fd)        // accepted, known to the server as `fd`
    | Closed(why: Reason)

  datatype ClientState = Reading | SawEof | GaveUp

  /** `accepted` is every byte the server handed to the connection, `wire` what is still
      under way, `output` what the client has written to its file. */
  datatype Connection = Connection(
    phase: Phase, accepted: seq<Byte>, wire: seq<Byte>, output: seq<Byte>, reset: bool, client: ClientState)

  const NEW_CONNECTION := Connection(Unconnected, [], [], [], false, Reading)

  datatype State = State(
    open: map<Fd, Resource>,
    interest: seq<map<Fd, Resource>>,
    reported: seq<seq<Resource>>,   // what the entries of each worker's batch were reported for
    workers: seq<Worker>,
    queue: seq<nat>,
    conns: seq<Connection>)

  datatype Action =
    | Connect(c: nat)
    | Reset(c: nat)                 // the network or the client's host drops the connection
    | Receive(c: nat, n: nat)       // recv returns n > 0 and the bytes are written
    | ReceiveEof(c: nat)            // recv returns 0
    | ReceiveError(c: nat)          // recv fails
    | Quit(c: nat, n: nat)          // recv returns n > 0 but the file cannot be written: the client exits
    | StopWaiting(c: nat)           // the wait for readable data fails: the client exits
    | Branch(w: nat)                // local step of a worker at the head of its batch loop
    | Invoke(w: nat, r: Reply)      // the pending call of a worker returns r

  predicate Init(sv: Server, s: State) {
    && s.open == map[sv.listenFd := Listener]
    && |s.interest| == |s.reported| == |s.workers|
    && (forall w :: 0 <= w < |s.workers| ==> s.workers[w] == NEW_WORKER)
    && (forall w :: 0 <= w < |s.workers| ==> s.interest[w] == map[])
    && (forall w :: 0 <= w < |s.workers| ==> s.reported[w] == [])
    && s.queue == []
    && (forall c :: 0 <= c < |s.conns| ==> s.conns[c] == NEW_CONNECTION)
  }

  predicate Shaped(s: State) {
    |s.interest| == |s.reported| == |s.workers|
  }

  // ---------------------------------------------------------------------------
  // The kernel
  // ---------------------------------------------------------------------------

  /** `fd` is registered with worker `w` and the registration has not died with a close. */
  predicate Watched(s: State, w: nat, fd: Fd)
    requires Shaped(s) && w < |s.workers|
  {
    fd in s.interest[w] && fd in s.open && s.interest[w][fd] == s.open[fd]
  }

  predicate DistinctEvents(events: seq<Event>) {
    forall i, j :: 0 <= i < j < |events| ==> events[i].fd != events[j].fd
  }

  predicate ConnectedTo(s: State, fd: Fd) {
    fd in s.open && s.open[fd].Peer? && s.open[fd].conn < |s.conns|
  }

  /** The replies the kernel can give to a call of worker `w`. */
  predicate Possible(s: State, w: nat, call: Call, r: Reply)
    requires Shaped(s) && w < |s.workers|
  {
    match call
    case EpollCreate => r.ret == -1 || (r.ret >= 0 && r.ret !in s.open)
    case EpollWait(_) =>
      || r.ret == -1
      || (r.ret == |r.events| && DistinctEvents(r.events)
          && forall i :: 0 <= i < |r.events| ==> Watched(s, w, r.events[i].fd))
    case Accept(_) => r.ret == -1 || (r.ret >= 0 && r.ret !in s.open && s.queue != [] && s.queue[0] < |s.conns|)
    case Send(fd, _, length) =>
      && -1 <= r.ret <= length
      && (r.ret > 0 ==> ConnectedTo(s, fd) && !s.conns[s.open[fd].conn].reset)
    case _ => true
  }

  function CloseReason(pc: Pc): Reason {
    match pc
    case Closing(_, why) => why
    case Dropping(_) => SetupFailed
    case _ => Shutdown
  }

  function CloseFd(s: State, fd: Fd, why: Reason): State {
    if fd !in s.open then s
    else
      var s1 := s.(open := s.open - {fd});
      if ConnectedTo(s, fd) then
        var c := s.open[fd].conn;
        s1.(conns := s.conns[c := s.conns[c].(phase := Closed(why))])
      else s1
  }

  function Push(conn: Connection, bytes: seq<Byte>): Connection {
    conn.(accepted := conn.accepted + bytes, wire := conn.wire + bytes)
  }

  /** What a call of worker `w` does to everything but the worker itself. */
  function KernelEffect(sv: Server, s: State, w: nat, call: Call, r: Reply): (s': State)
    requires Shaped(s) && w < |s.workers| && Possible(s, w, call, r)
    ensures s'.workers == s.workers && Shaped(s') && |s'.conns| == |s.conns|
  {
    match call
    case EpollCreate => if r.ret == -1 then s else s.(open := s.open[r.ret := Epoll(w)])
    case EpollAdd(_, fd) =>
      if r.ret == -1 || fd !in s.open then s
      else s.(interest := s.interest[w := s.interest[w][fd := s.open[fd]]])
    case EpollDelete(_, fd) => s.(interest := s.interest[w := s.interest[w] - {fd}])
    case EpollWait(_) =>
      if r.ret == -1 then s
      else
        var named := seq(|r.events|, i requires 0 <= i < |r.events| && r.events[i].fd in s.open =>
                           s.open[r.events[i].fd]);
        s.(reported := s.reported[w := named])
    case Accept(_) =>
      if r.ret == -1 then s
      else
        var c := s.queue[0];
        s.(open := s.open[r.ret := Peer(c, w)],
           queue := s.queue[1..],
           conns := s.conns[c := s.conns[c].(phase := Phase.Open(r.ret))])
    case Send(fd, offset, length) =>
      if r.ret <= 0 || offset + r.ret > |sv.payload| then s
      else
        var c := s.open[fd].conn;
        s.(conns := s.conns[c := Push(s.conns[c], sv.payload[offset..offset + r.ret])])
    case Close(fd) => CloseFd(s, fd, CloseReason(s.workers[w].pc))
    case SetNonblocking(_) => s
  }

  // ---------------------------------------------------------------------------
  // Steps and runs
  // ---------------------------------------------------------------------------

  predicate Enabled(sv: Server, s: State, a: Action)
    requires Shaped(s)
  {
    match a
    case Connect(c) => c < |s.conns| && s.conns[c].phase.Unconnected?
    case Reset(c) => c < |s.conns| && !s.conns[c].phase.Unconnected? && s.conns[c].client.Reading?
    case Receive(c, n) => c < |s.conns| && s.conns[c].client.Reading? && 0 < n <= |s.conns[c].wire| && n <= BUFFER_SIZE
    case ReceiveEof(c) =>
      && c < |s.conns| && s.conns[c].client.Reading?
      && !s.conns[c].reset && s.conns[c].wire == [] && s.conns[c].phase.Closed?
    case ReceiveError(c) => c < |s.conns| && s.conns[c].client.Reading? && s.conns[c].reset
    case Quit(c, n) => c < |s.conns| && s.conns[c].client.Reading? && 0 < n <= |s.conns[c].wire| && n <= BUFFER_SIZE
    case StopWaiting(c) => c < |s.conns| && !s.conns[c].phase.Unconnected? && s.conns[c].client.Reading?
    case Branch(w) => w < |s.workers| && s.workers[w].WellFormed() && s.workers[w].pc.Dispatching?
    case Invoke(w, r) =>
      && w < |s.workers| && s.workers[w].WellFormed() && s.workers[w].AtCall()
      && Possible(s, w, Request(sv.Cfg(), s.workers[w]), r)
  }

  function Apply(sv: Server, s: State, a: Action): (s': State)
    requires Shaped(s) && Enabled(sv, s, a)
    ensures Shaped(s') && |s'.workers| == |s.workers| && |s'.conns| == |s.conns|
  {
    match a
    case Connect(c) => s.(conns := s.conns[c := s.conns[c].(phase := Queued)], queue := s.queue + [c])
    case Reset(c) => s.(conns := s.conns[c := s.conns[c].(reset := true, wire := [])])
    case Receive(c, n) =>
      var k := s.conns[c];
      s.(conns := s.conns[c := k.(wire := k.wire[n..], output := k.output + k.wire[..n])])
    case ReceiveEof(c) => s.(conns := s.conns[c := s.conns[c].(client := SawEof)])
    case ReceiveError(c) => s.(conns := s.conns[c := s.conns[c].(client := GaveUp)])
    case Quit(c, _) => s.(conns := s.conns[c := s.conns[c].(client := GaveUp, reset := true, wire := [])])
    case StopWaiting(c) => s.(conns := s.conns[c := s.conns[c].(client := GaveUp, reset := true, wire := [])])
    case Branch(w) => s.(workers := s.workers[w := Dispatch(sv.Cfg(), s.workers[w])])
    case Invoke(w, r) =>
      var s1 := KernelEffect(sv, s, w, Request(sv.Cfg(), s.workers[w]), r);
      s1.(workers := s.workers[w := OnReply(sv.Cfg(), s.workers[w], r)])
  }

  /** `acts` can be performed one after the other from `s`. */
  predicate Run(sv: Server, s: State, acts: seq<Action>)
    requires Shaped(s)
    decreases acts
  {
    acts == [] || (Enabled(sv, s, acts[0]) && Run(sv, Apply(sv, s, acts[0]), acts[1..]))
  }

  function After(sv: Server, s: State, acts: seq<Action>): (s': State)
    requires Shaped(s) && Run(sv, s, acts)
    ensures Shaped(s') && |s'.workers| == |s.workers| && |s'.conns| == |s.conns|
    decreases acts
  {
    if acts == [] then s else After(sv, Apply(sv, s, acts[0]), acts[1..])
  }
}
