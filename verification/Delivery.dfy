/** From the payload to the client's file: server, kernel, network and client together. */
module Delivery {
  import opened ClientTable
  import opened WorkerLoop
  import opened FileServer
  import opened ServerInvariant
  import opened ServerSteps
  import opened ServerTheorems
  import opened Receivers

  /** What the `recv` calls of client `c` return along a run. */
  function ClientView(sv: Server, s: State, acts: seq<Action>, c: nat): seq<RecvOutcome>
    requires Shaped(s) && Run(sv, s, acts) && c < |s.conns|
    decreases acts
  {
    if acts == [] then []
    else Seen(s, acts[0], c) + ClientView(sv, Apply(sv, s, acts[0]), acts[1..], c)
  }

  function Seen(s: State, a: Action, c: nat): seq<RecvOutcome>
    requires c < |s.conns|
  {
    match a
    case Receive(d, n) => if d == c && 0 < n <= |s.conns[c].wire| && n <= BUFFER_SIZE
        then [Data(s.conns[c].wire[..n], true)] else []
    case Quit(d, n) => if d == c && 0 < n <= |s.conns[c].wire| && n <= BUFFER_SIZE
        then [Data(s.conns[c].wire[..n], false)] else []
    case ReceiveEof(d) => if d == c then [Eof] else []
    case ReceiveError(d) => if d == c then [Failed] else []
    case StopWaiting(d) => if d == c then [FAILED_WAIT] else []
    case _ => []
  }

  function StatusOf(client: ClientState): Status {
    match client
    case Reading => InProgress
    case SawEof => Success
    case GaveUp => Failure
  }

  /** The file of a connection is what the receiving loop writes on what that client sees. */
  lemma {:induction false} ClientRunsItsLoop(sv: Server, s: State, acts: seq<Action>, c: nat)
    requires Shaped(s) && Run(sv, s, acts) && c < |s.conns|
    ensures var k := After(sv, s, acts).conns[c];
            s.conns[c].client.Reading? ==>
                Blocking(ClientView(sv, s, acts, c), s.conns[c].output) == Received(StatusOf(k.client), k.output)
    ensures !s.conns[c].client.Reading? ==>
              && ClientView(sv, s, acts, c) == []
              && After(sv, s, acts).conns[c].client == s.conns[c].client
              && After(sv, s, acts).conns[c].output == s.conns[c].output
    decreases acts
  {
    if acts != [] {
      var s' := Apply(sv, s, acts[0]);
      ClientRunsItsLoop(sv, s', acts[1..], c);
      ClientMoves(sv, s, acts[0], c);
      var later := ClientView(sv, s', acts[1..], c);
      var seen := Seen(s, acts[0], c);
      if seen != [] {
        assert (seen + later)[0] == seen[0] && (seen + later)[1..] == later;
      } else {
        assert seen + later == later;
      }
    }
  }

  /** One step: the client sees one outcome and reacts as its loop does, or sees nothing. */
  lemma ClientMoves(sv: Server, s: State, a: Action, c: nat)
    requires Shaped(s) && Enabled(sv, s, a) && c < |s.conns|
    ensures var k, k' := s.conns[c], Apply(sv, s, a).conns[c];
            var seen := Seen(s, a, c);
            if seen == [] then k'.client == k.client && k'.output == k.output
            else |seen| == 1 && k.client.Reading? && !seen[0].Interrupted?
                 && match seen[0]
                    case Data(bytes, true) => k'.client == Reading && k'.output == k.output + bytes
                    case Eof => k'.client == SawEof && k'.output == k.output
                    case WouldBlock(polls) => Wait(polls) == Failure && k'.client == GaveUp && k'.output == k.output
                    case _ => k'.client == GaveUp && k'.output == k.output
  {
    hide KernelEffect;
    if a.Invoke? { WorkersMoveNoClient(sv, s, a.w, a.r, c); }
  }

  lemma WorkersMoveNoClient(sv: Server, s: State, w: nat, r: Reply, c: nat)
    requires Shaped(s) && Enabled(sv, s, Invoke(w, r)) && c < |s.conns|
    ensures Apply(sv, s, Invoke(w, r)).conns[c].client == s.conns[c].client
    ensures Apply(sv, s, Invoke(w, r)).conns[c].output == s.conns[c].output
  {
  }

  /** End to end, for every interleaving, every segmentation of sends and receives and every
      mix of other clients: a client whose loop is on `trace`, with any number of retries in
      it, has written a prefix of what the server handed to its connection, which is a
      prefix of the payload.  If its loop succeeded, the server has closed the connection
      and the file is all that was handed to it: the whole payload if the connection was
      closed as finished, and only then, unless the payload is empty. */
  lemma EndToEnd(sv: Server, s0: State, acts: seq<Action>, s: State, c: nat, trace: seq<RecvOutcome>)
    requires Reaches(sv, s0, acts, s) && c < |s.conns|
    requires WithoutRetries(trace) == ClientView(sv, s0, acts, c)
    ensures var k, r := s.conns[c], NonBlocking(trace, []);
            && Blocking(ClientView(sv, s0, acts, c), []) == r
            && r.output == k.output
            && r.output <= k.accepted <= sv.payload
            && (r.status == Success ==>
                  && k.phase.Closed?
                  && r.output == k.accepted
                  && (r.output == sv.payload <==> k.phase.why == Finished || sv.payload == []))
  {
    Reached(sv, s0, acts, s);
    RetriesLeaveNoMark(trace, []);
    ClientRunsItsLoop(sv, s0, acts, c);
    var k := s.conns[c];
    assert StreamOk(sv, k);
    if k.output <= k.accepted && k.accepted <= sv.payload {
      assert k.output <= sv.payload;
    }
  }

  /** While a connection is in a slot, the slot's offset tells what was handed to it. */
  lemma OffsetIsHandedOver(sv: Server, s0: State, acts: seq<Action>, s: State, w: nat, j: nat)
    requires Reaches(sv, s0, acts, s) && w < |s.workers|
    requires LiveFrom(s.workers[w]) <= j < |s.workers[w].table|
    ensures var slot := s.workers[w].table[j];
            && ConnectedTo(s, slot.fd) && slot.sent <= |sv.payload|
            && s.conns[s.open[slot.fd].conn].accepted == sv.payload[..slot.sent]
  {
    Reached(sv, s0, acts, s);
    assert Good(sv, s, w);
    assert SlotTrue(sv, Mine(s.open, w), s.conns, s.workers[w].table[j]);
    SlotIsOpen(sv, s, w, j);
  }

  // ---------------------------------------------------------------------------
  // Success does not mean complete
  // ---------------------------------------------------------------------------

  lemma Extend(sv: Server, s0: State, acts: seq<Action>, s: State, a: Action) returns (acts': seq<Action>, s': State)
    requires Reaches(sv, s0, acts, s) && Enabled(sv, s, a)
    ensures Reaches(sv, s0, acts', s') && acts' == acts + [a] && s' == Apply(sv, s, a)
  {
    acts', s' := acts + [a], Apply(sv, s, a);
    RunSplit(sv, s0, acts, [a]);
    assert After(sv, s, [a]) == s' by {
      assert [a][1..] == [];
    }
  }

  /** One worker waiting for events, one client connected. */
  lemma FirstWait(sv: Server) returns (s0: State, acts: seq<Action>, s: State)
    requires sv.listenFd >= 0
    ensures Reaches(sv, s0, acts, s)
    ensures s == State(map[sv.listenFd := Listener, sv.listenFd + 1 := Epoll(0)], [map[sv.listenFd := Listener]], [[]],
                       [NEW_WORKER.(pc := Waiting, epollFd := sv.listenFd + 1)], [0],
                       [NEW_CONNECTION.(phase := Queued)])
  {
    s0 := State(map[sv.listenFd := Listener], [map[]], [[]], [NEW_WORKER], [], [NEW_CONNECTION]);
    acts, s := [], s0;
    acts, s := Extend(sv, s0, acts, s, Connect(0));
    acts, s := Extend(sv, s0, acts, s, Invoke(0, Ret(sv.listenFd + 1)));
    acts, s := Extend(sv, s0, acts, s, Invoke(0, Ret(0)));
  }

  /** The same worker when it has got the event of the listener. */
  lemma FirstBatch(sv: Server) returns (s0: State, acts: seq<Action>, s: State)
    requires sv.listenFd >= 0
    ensures Reaches(sv, s0, acts, s)
    ensures s.open == map[sv.listenFd := Listener, sv.listenFd + 1 := Epoll(0)] && Shaped(s)
    ensures s.queue == [0] && s.conns == [NEW_CONNECTION.(phase := Queued)]
    ensures s.workers == [Worker(Dispatching, sv.listenFd + 1, [], [Event(sv.listenFd, false, false)], 0)]
  {
    hide Reaches;
    s0, acts, s := FirstWait(sv);
    var r := Reply(1, OTHER, [Event(sv.listenFd, false, false)]);
    assert Watched(s, 0, sv.listenFd);
    acts, s := Extend(sv, s0, acts, s, Invoke(0, r));
  }

  /** The same worker when it has just accepted that connection. */
  lemma FirstAccept(sv: Server) returns (s0: State, acts: seq<Action>, s: State)
    requires sv.listenFd >= 0
    ensures Reaches(sv, s0, acts, s) && |s.workers| == |s.conns| == 1
    ensures s.workers[0].pc == Configuring(sv.listenFd + 2) && |s.workers[0].table| == 0
    ensures s.open[sv.listenFd + 2 := Peer(0, 0)] == s.open
    ensures s.conns[0] == NEW_CONNECTION.(phase := Phase.Open(sv.listenFd + 2))
  {
    hide Reaches;
    s0, acts, s := FirstBatch(sv);
    acts, s := Extend(sv, s0, acts, s, Branch(0));
    acts, s := Extend(sv, s0, acts, s, Invoke(0, Ret(sv.listenFd + 2)));
  }

  /** The only framing is the close: when `set_nonblocking` fails on an accepted connection,
      the server closes it and the client reports success with an empty file. */
  lemma TruncatedSuccess(sv: Server)
    requires sv.payload != [] && sv.listenFd >= 0
    ensures exists s0, acts, s :: Reaches(sv, s0, acts, s) && |s.conns| == 1
                                  && Blocking(ClientView(sv, s0, acts, 0), []) == Received(Success, [])
  {
    var s0, acts, s := FirstAccept(sv);
    acts, s := Extend(sv, s0, acts, s, Invoke(0, Ret(-1)));
    acts, s := Extend(sv, s0, acts, s, Invoke(0, Ret(0)));
    acts, s := Extend(sv, s0, acts, s, ReceiveEof(0));
    ClientRunsItsLoop(sv, s0, acts, 0);
  }
}
