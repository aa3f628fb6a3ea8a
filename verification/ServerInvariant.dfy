/** What every step of every worker, client and of the network keeps. */
module ServerInvariant {
  import opened ClientTable
  import opened WorkerLoop
  import opened FileServer

  // ---------------------------------------------------------------------------
  // One worker and the descriptors it obtained
  // ---------------------------------------------------------------------------

  predicate Owns(r: Resource, w: nat) {
    !r.Listener? && r.owner == w
  }

  /** The part of the descriptor table that worker `w` obtained. */
  ghost function Mine(open: map<Fd, Resource>, w: nat): map<Fd, Resource> {
    map fd | fd in open && Owns(open[fd], w) :: open[fd]
  }

  /** First slot of the table whose descriptor is still open. */
  function LiveFrom(wk: Worker): nat {
    match wk.pc
    case Cleaning(i) => i
    case ClosingEpoll => |wk.table|
    case Exited => |wk.table|
    case _ => 0
  }

  predicate InFlight(pc: Pc) {
    pc.Configuring? || pc.Registering? || pc.Dropping?
  }

  predicate OnSlot(pc: Pc) {
    pc.Sending? || pc.Deleting? || pc.Closing?
  }

  predicate InBatch(pc: Pc) {
    pc.Dispatching? || pc.Accepting? || InFlight(pc) || OnSlot(pc)
  }

  predicate Serving(pc: Pc) {
    pc.Waiting? || InBatch(pc)
  }

  /** `fd` is in a live slot. */
  ghost predicate InSlot(wk: Worker, fd: Fd) {
    exists j :: LiveFrom(wk) <= j < |wk.table| && wk.table[j].fd == fd
  }

  ghost predicate HoldsClient(wk: Worker, fd: Fd) {
    InSlot(wk, fd) || (InFlight(wk.pc) && wk.pc.fd == fd)
  }

  ghost predicate HoldsEpoll(wk: Worker, fd: Fd) {
    !wk.pc.Starting? && !wk.pc.Exited? && fd == wk.epollFd
  }

  /** The worker holds exactly the descriptors it obtained and has not closed. */
  ghost predicate Holding(wk: Worker, mine: map<Fd, Resource>) {
    && Distinct(wk.table)
    && (InFlight(wk.pc) ==> !Holds(wk.table, wk.pc.fd))
    && (forall fd :: HoldsClient(wk, fd) <==> fd in mine && mine[fd].Peer?)
    && (forall fd :: HoldsEpoll(wk, fd) <==> fd in mine && mine[fd].Epoll?)
    && (wk.pc.Starting? || wk.pc.Subscribing? ==> wk.table == [])
  }

  ghost predicate BeingClosed(wk: Worker, fd: Fd) {
    wk.pc.Closing? && wk.pc.index < |wk.table| && fd == wk.table[wk.pc.index].fd
  }

  /** The client part of the interest set is the live prefix of the table. */
  ghost predicate Interested(sv: Server, wk: Worker, mine: map<Fd, Resource>, interest: map<Fd, Resource>) {
    && (Serving(wk.pc) ==> sv.listenFd in interest && interest[sv.listenFd] == Listener)
    && (Serving(wk.pc) ==> forall fd :: fd in interest && fd != sv.listenFd <==> InSlot(wk, fd) && !BeingClosed(wk, fd))
    && (Serving(wk.pc) ==> forall fd :: fd in interest && fd in mine ==> interest[fd] == mine[fd])
    && (wk.pc.Starting? || wk.pc.Subscribing? ==> interest == map[])
  }

  /** Entry `j` of the batch still names what it was reported for. */
  ghost predicate Current(sv: Server, wk: Worker, mine: map<Fd, Resource>, reported: seq<Resource>, j: nat)
    requires j < |wk.batch| == |reported|
  {
    var fd := wk.batch[j].fd;
    fd == sv.listenFd || (InSlot(wk, fd) && fd in mine && mine[fd] == reported[j])
  }

  ghost predicate Batched(sv: Server, wk: Worker, mine: map<Fd, Resource>, reported: seq<Resource>) {
    InBatch(wk.pc) ==>
      && |wk.batch| == |reported|
      && DistinctEvents(wk.batch)
      && (forall j :: wk.pos <= j < |wk.batch| ==> Current(sv, wk, mine, reported, j))
      && (!wk.pc.Dispatching? ==> wk.pos < |wk.batch|)
      && (wk.pc.Accepting? || InFlight(wk.pc) ==> wk.batch[wk.pos].fd == sv.listenFd)
      && (OnSlot(wk.pc) && wk.pc.index < |wk.table| ==> wk.batch[wk.pos].fd == wk.table[wk.pc.index].fd)
  }

  /** The offset of a slot says exactly what its connection was handed. */
  ghost predicate SlotTrue(sv: Server, mine: map<Fd, Resource>, conns: seq<Connection>, slot: Slot) {
    && slot.fd in mine && mine[slot.fd].Peer? && mine[slot.fd].conn < |conns|
    && slot.sent <= |sv.payload|
    && conns[mine[slot.fd].conn].accepted == sv.payload[..slot.sent]
  }

  /** A slot is complete only on its way to being closed as finished. */
  ghost predicate Marked(sv: Server, wk: Worker, j: nat)
    requires j < |wk.table|
  {
    if (wk.pc.Deleting? || wk.pc.Closing?) && wk.pc.index == j && wk.pc.why == Finished
    then wk.table[j].sent == |sv.payload|
    else wk.table[j].sent < |sv.payload| || sv.payload == []
  }

  ghost predicate Streaming(sv: Server, wk: Worker, mine: map<Fd, Resource>, conns: seq<Connection>) {
    && (forall j :: LiveFrom(wk) <= j < |wk.table| ==> SlotTrue(sv, mine, conns, wk.table[j]) && Marked(sv, wk, j))
    && (InFlight(wk.pc) ==> SlotTrue(sv, mine, conns, Slot(wk.pc.fd, 0)))
    && (wk.pc.Sending? && wk.pc.index < |wk.table| ==> wk.table[wk.pc.index].sent < |sv.payload|)
    && (wk.pc.Deleting? || wk.pc.Closing? ==> wk.pc.why != SetupFailed && wk.pc.why != Shutdown)
  }

  ghost predicate WorkerOk(sv: Server, wk: Worker, mine: map<Fd, Resource>, interest: map<Fd, Resource>,
                           reported: seq<Resource>, conns: seq<Connection>)
  {
    && wk.WellFormed()
    && sv.listenFd !in mine
    && Holding(wk, mine)
    && Interested(sv, wk, mine, interest)
    && Batched(sv, wk, mine, reported)
    && Streaming(sv, wk, mine, conns)
  }

  // ---------------------------------------------------------------------------
  // Descriptors, connections and streams
  // ---------------------------------------------------------------------------

  ghost predicate DescriptorOk(sv: Server, s: State, fd: Fd)
    requires fd in s.open
  {
    match s.open[fd]
    case Listener => fd == sv.listenFd
    case Epoll(w) => w < |s.workers|
    case Peer(c, w) => w < |s.workers| && c < |s.conns| && s.conns[c].phase == Open(fd)
  }

  ghost predicate PhaseOk(s: State, c: nat)
    requires c < |s.conns|
  {
    match s.conns[c].phase
    case Open(fd) => ConnectedTo(s, fd) && s.open[fd].conn == c
    case Queued => c in s.queue
    case _ => true
  }

  ghost predicate QueueOk(s: State) {
    && (forall i :: 0 <= i < |s.queue| ==> s.queue[i] < |s.conns| && s.conns[s.queue[i]].phase == Queued)
    && (forall i, j :: 0 <= i < j < |s.queue| ==> s.queue[i] != s.queue[j])
  }

  ghost predicate KernelOk(sv: Server, s: State) {
    && sv.listenFd in s.open && s.open[sv.listenFd] == Listener
    && (forall fd :: fd in s.open ==> DescriptorOk(sv, s, fd))
    && (forall c :: 0 <= c < |s.conns| ==> PhaseOk(s, c))
    && QueueOk(s)
  }

  /** TCP delivers in order, and the file of the client is what it was delivered. */
  ghost predicate StreamOk(sv: Server, k: Connection) {
    && k.accepted <= sv.payload
    && (k.phase.Unconnected? || k.phase.Queued? ==> k.accepted == [])
    && (!k.reset ==> k.output + k.wire == k.accepted)
    && (k.reset ==> k.wire == [] && k.output <= k.accepted)
    && (k.client.SawEof? ==> k.phase.Closed? && k.output == k.accepted)
    && (k.phase.Closed? ==>
          match k.phase.why
          case Finished => k.accepted == sv.payload
          case SetupFailed => k.accepted == []
          case _ => |k.accepted| < |sv.payload| || sv.payload == [])
  }

  ghost predicate Inv(sv: Server, s: State) {
    && Shaped(s)
    && KernelOk(sv, s)
    && (forall c :: 0 <= c < |s.conns| ==> StreamOk(sv, s.conns[c]))
    && (forall w :: 0 <= w < |s.workers| ==> Good(sv, s, w))
  }

  ghost predicate Good(sv: Server, s: State, w: nat)
    requires Shaped(s) && w < |s.workers|
  {
    WorkerOk(sv, s.workers[w], Mine(s.open, w), s.interest[w], s.reported[w], s.conns)
  }

  // ---------------------------------------------------------------------------
  // Initially
  // ---------------------------------------------------------------------------

  lemma InitInv(sv: Server, s: State)
    requires Init(sv, s)
    ensures Inv(sv, s)
  {
  }

  // ---------------------------------------------------------------------------
  // Steps of one worker
  // ---------------------------------------------------------------------------

  lemma BranchKeeps(sv: Server, wk: Worker, mine: map<Fd, Resource>, interest: map<Fd, Resource>,
                    reported: seq<Resource>, conns: seq<Connection>)
    requires WorkerOk(sv, wk, mine, interest, reported, conns) && wk.pc.Dispatching?
    ensures WorkerOk(sv, Dispatch(sv.Cfg(), wk), mine, interest, reported, conns)
  {
    hide Holding;
    hide Interested;
    var wk' := Dispatch(sv.Cfg(), wk);
    if wk.pos < |wk.batch| {
      assert Current(sv, wk, mine, reported, wk.pos);
    }
    SameHoldings(sv, wk, wk', mine, interest, reported, conns);
  }

  /** A local move between places with the same descriptors keeps everything. */
  lemma SameHoldings(sv: Server, wk: Worker, wk': Worker, mine: map<Fd, Resource>, interest: map<Fd, Resource>,
                     reported: seq<Resource>, conns: seq<Connection>)
    requires WorkerOk(sv, wk, mine, interest, reported, conns) && wk'.WellFormed()
    requires Serving(wk.pc) && Serving(wk'.pc) && !InFlight(wk'.pc) && !wk.pc.Closing? && !wk'.pc.Closing?
    requires forall fd :: HoldsClient(wk, fd) ==> InSlot(wk, fd)
    requires wk'.table == wk.table && wk'.epollFd == wk.epollFd && wk'.batch == wk.batch
    requires InBatch(wk'.pc) ==> InBatch(wk.pc) && wk'.pos >= wk.pos
    requires InBatch(wk'.pc) && !wk'.pc.Dispatching? ==> wk'.pos < |wk.batch|
    requires wk'.pc.Accepting? ==> wk.batch[wk'.pos].fd == sv.listenFd
    requires OnSlot(wk'.pc) ==> wk.batch[wk'.pos].fd == wk.table[wk'.pc.index].fd
    requires wk'.pc.Sending? ==> wk.table[wk'.pc.index].sent < |sv.payload|
    requires wk'.pc.Deleting? ==>
        wk'.pc.why == HangUp || (wk'.pc.why == Finished && wk.table[wk'.pc.index].sent == |sv.payload|)
    requires forall j :: 0 <= j < |wk.table| ==> wk.table[j].sent < |sv.payload| || sv.payload == []
    ensures WorkerOk(sv, wk', mine, interest, reported, conns)
  {
    assert forall fd :: InSlot(wk', fd) <==> InSlot(wk, fd);
    assert Holding(wk', mine);
    assert Interested(sv, wk', mine, interest);
    assert Batched(sv, wk', mine, reported) by {
      if InBatch(wk'.pc) {
        forall j | wk'.pos <= j < |wk.batch|
          ensures Current(sv, wk', mine, reported, j)
        {
          assert Current(sv, wk, mine, reported, j);
        }
      }
    }
    assert Streaming(sv, wk', mine, conns);
  }

  /** A worker sees of a connection only what it handed to it. */
  lemma ConnsFrame(sv: Server, wk: Worker, mine: map<Fd, Resource>, interest: map<Fd, Resource>,
                   reported: seq<Resource>, conns: seq<Connection>, conns': seq<Connection>)
    requires WorkerOk(sv, wk, mine, interest, reported, conns) && |conns'| == |conns|
    requires forall fd :: fd in mine && mine[fd].Peer? && mine[fd].conn < |conns| ==>
                            conns'[mine[fd].conn].accepted == conns[mine[fd].conn].accepted
    ensures WorkerOk(sv, wk, mine, interest, reported, conns')
  {
  }

  lemma CreateKeeps(sv: Server, wk: Worker, w: nat, mine: map<Fd, Resource>, interest: map<Fd, Resource>,
                    reported: seq<Resource>, conns: seq<Connection>, r: Reply)
    requires WorkerOk(sv, wk, mine, interest, reported, conns) && wk.pc.Starting?
    requires r.ret != -1 ==> r.ret !in mine && r.ret != sv.listenFd
    ensures WorkerOk(sv, OnReply(sv.Cfg(), wk, r), if r.ret == -1 then mine else mine[r.ret := Epoll(w)],
                     interest, reported, conns)
  {
  }

  lemma SubscribeKeeps(sv: Server, wk: Worker, mine: map<Fd, Resource>, interest: map<Fd, Resource>,
                       reported: seq<Resource>, conns: seq<Connection>, r: Reply)
    requires WorkerOk(sv, wk, mine, interest, reported, conns) && wk.pc.Subscribing?
    ensures WorkerOk(sv, OnReply(sv.Cfg(), wk, r), mine,
                     if r.ret == -1 then interest else interest[sv.listenFd := Listener], reported, conns)
  {
  }

  lemma WaitKeeps(sv: Server, wk: Worker, mine: map<Fd, Resource>, interest: map<Fd, Resource>,
                  reported: seq<Resource>, reported': seq<Resource>, conns: seq<Connection>, r: Reply)
    requires WorkerOk(sv, wk, mine, interest, reported, conns) && wk.pc.Waiting?
    requires r.ret == -1 ==> reported' == reported
    requires r.ret != -1 ==> DistinctEvents(r.events) && |reported'| == |r.events|
    requires r.ret != -1 ==> forall i :: 0 <= i < |r.events| ==>
        r.events[i].fd in interest && interest[r.events[i].fd] == reported'[i]
    ensures WorkerOk(sv, OnReply(sv.Cfg(), wk, r), mine, interest, reported', conns)
  {
    var wk' := OnReply(sv.Cfg(), wk, r);
    if !wk'.pc.Waiting? {
      assert forall fd :: HoldsClient(wk', fd) <==> HoldsClient(wk, fd);
      assert forall fd :: HoldsEpoll(wk', fd) <==> HoldsEpoll(wk, fd);
      assert Holding(wk', mine);
      if r.ret != -1 {
        forall j | 0 <= j < |r.events|
          ensures Current(sv, wk', mine, reported', j)
        {
          var fd := r.events[j].fd;
          assert fd in interest;
          assert fd != sv.listenFd ==> InSlot(wk, fd) && HoldsClient(wk, fd);
        }
        assert forall fd :: InSlot(wk', fd) <==> InSlot(wk, fd);
      }
    }
  }

  lemma AcceptKeeps(sv: Server, wk: Worker, w: nat, mine: map<Fd, Resource>, interest: map<Fd, Resource>,
                    reported: seq<Resource>, conns: seq<Connection>, r: Reply, c: nat)
    requires WorkerOk(sv, wk, mine, interest, reported, conns) && wk.pc.Accepting?
    requires r.ret != -1 ==> r.ret !in mine && r.ret != sv.listenFd && c < |conns| && conns[c].accepted == []
    ensures WorkerOk(sv, OnReply(sv.Cfg(), wk, r), if r.ret == -1 then mine else mine[r.ret := Peer(c, w)],
                     interest, reported, conns)
  {
    var wk' := OnReply(sv.Cfg(), wk, r);
    if r.ret == -1 {
      SameHoldings(sv, wk, wk', mine, interest, reported, conns);
    } else {
      var mine' := mine[r.ret := Peer(c, w)];
      assert forall fd :: InSlot(wk', fd) <==> InSlot(wk, fd);
      assert forall fd :: HoldsEpoll(wk', fd) <==> HoldsEpoll(wk, fd);
      assert !HoldsClient(wk, r.ret);
      assert !Holds(wk.table, r.ret);
      assert Holding(wk', mine');
      assert Interested(sv, wk', mine', interest);
      forall j | wk.pos <= j < |wk.batch|
        ensures Current(sv, wk', mine', reported, j)
      {
        assert Current(sv, wk, mine, reported, j);
      }
      forall j | 0 <= j < |wk.table|
        ensures SlotTrue(sv, mine', conns, wk.table[j]) && Marked(sv, wk', j)
      {
        assert SlotTrue(sv, mine, conns, wk.table[j]) && Marked(sv, wk, j);
      }
    }
  }

  lemma ConfigureKeeps(sv: Server, wk: Worker, mine: map<Fd, Resource>, interest: map<Fd, Resource>,
                       reported: seq<Resource>, conns: seq<Connection>, r: Reply)
    requires WorkerOk(sv, wk, mine, interest, reported, conns) && wk.pc.Configuring?
    ensures WorkerOk(sv, OnReply(sv.Cfg(), wk, r), mine, interest, reported, conns)
  {
    StillInFlight(sv, wk, OnReply(sv.Cfg(), wk, r).pc, mine, interest, reported, conns);
  }

  lemma StillInFlight(sv: Server, wk: Worker, pc: Pc, mine: map<Fd, Resource>, interest: map<Fd, Resource>,
                      reported: seq<Resource>, conns: seq<Connection>)
    requires WorkerOk(sv, wk, mine, interest, reported, conns)
    requires InFlight(wk.pc) && InFlight(pc) && pc.fd == wk.pc.fd
    ensures WorkerOk(sv, wk.(pc := pc), mine, interest, reported, conns)
  {
    var wk' := wk.(pc := pc);
    assert forall fd :: InSlot(wk', fd) <==> InSlot(wk, fd);
    assert forall fd :: HoldsEpoll(wk', fd) <==> HoldsEpoll(wk, fd);
    assert Holding(wk', mine);
    forall j | wk.pos <= j < |wk.batch|
      ensures Current(sv, wk', mine, reported, j)
    {
      assert Current(sv, wk, mine, reported, j);
    }
    assert forall j :: 0 <= j < |wk.table| && Marked(sv, wk, j) ==> Marked(sv, wk', j);
  }

  lemma RegisterKeeps(sv: Server, wk: Worker, mine: map<Fd, Resource>, interest: map<Fd, Resource>,
                      reported: seq<Resource>, conns: seq<Connection>, r: Reply)
    requires WorkerOk(sv, wk, mine, interest, reported, conns) && wk.pc.Registering?
    ensures wk.pc.fd in mine
    ensures WorkerOk(sv, OnReply(sv.Cfg(), wk, r), mine,
                     if r.ret == -1 then interest else interest[wk.pc.fd := mine[wk.pc.fd]], reported, conns)
  {
    assert HoldsClient(wk, wk.pc.fd);
    if r.ret == -1 {
      StillInFlight(sv, wk, Dropping(wk.pc.fd), mine, interest, reported, conns);
    } else {
      InsertKeeps(sv, wk, mine, interest, reported, conns);
    }
  }

  lemma InsertKeeps(sv: Server, wk: Worker, mine: map<Fd, Resource>, interest: map<Fd, Resource>,
                    reported: seq<Resource>, conns: seq<Connection>)
    requires WorkerOk(sv, wk, mine, interest, reported, conns) && wk.pc.Registering? && wk.pc.fd in mine
    ensures WorkerOk(sv, AcceptHead(wk.(table := Insert(wk.table, wk.pc.fd))), mine,
                     interest[wk.pc.fd := mine[wk.pc.fd]], reported, conns)
  {
    var fd := wk.pc.fd;
    var wk' := AcceptHead(wk.(table := Insert(wk.table, fd)));
    InsertedSlots(sv, wk, wk', mine, interest);
    forall j | wk.pos <= j < |wk.batch|
      ensures Current(sv, wk', mine, reported, j)
    {
      assert Current(sv, wk, mine, reported, j);
    }
    forall j | 0 <= j < |wk'.table|
      ensures SlotTrue(sv, mine, conns, wk'.table[j]) && Marked(sv, wk', j)
    {
      if j < |wk.table| {
        assert SlotTrue(sv, mine, conns, wk.table[j]) && Marked(sv, wk, j);
      }
    }
  }

  lemma InsertedSlots(sv: Server, wk: Worker, wk': Worker, mine: map<Fd, Resource>, interest: map<Fd, Resource>)
    requires wk.WellFormed() && wk.pc.Registering? && wk.pc.fd in mine && sv.listenFd !in mine
    requires Holding(wk, mine) && Interested(sv, wk, mine, interest)
    requires wk' == AcceptHead(wk.(table := Insert(wk.table, wk.pc.fd)))
    ensures Holding(wk', mine) && Interested(sv, wk', mine, interest[wk.pc.fd := mine[wk.pc.fd]])
    ensures forall g :: InSlot(wk', g) <==> InSlot(wk, g) || g == wk.pc.fd
  {
    var fd := wk.pc.fd;
    assert forall g :: HoldsEpoll(wk', g) <==> HoldsEpoll(wk, g);
    InsertIsMapInsertion(wk.table, fd);
    forall g
      ensures InSlot(wk', g) <==> InSlot(wk, g) || g == fd
    {
      assert wk'.table[|wk.table|] == Slot(fd, 0);
      if InSlot(wk, g) {
        var j :| 0 <= j < |wk.table| && wk.table[j].fd == g;
        assert wk'.table[j].fd == g;
      }
    }
    assert forall g :: HoldsClient(wk', g) <==> HoldsClient(wk, g);
  }

  lemma DropKeeps(sv: Server, wk: Worker, mine: map<Fd, Resource>, interest: map<Fd, Resource>,
                  reported: seq<Resource>, conns: seq<Connection>, r: Reply)
    requires WorkerOk(sv, wk, mine, interest, reported, conns) && wk.pc.Dropping?
    ensures WorkerOk(sv, OnReply(sv.Cfg(), wk, r), mine - {wk.pc.fd}, interest, reported, conns)
  {
    var wk' := OnReply(sv.Cfg(), wk, r);
    var mine' := mine - {wk.pc.fd};
    assert HoldsClient(wk, wk.pc.fd);
    assert forall fd :: InSlot(wk', fd) <==> InSlot(wk, fd);
    assert forall fd :: HoldsEpoll(wk', fd) <==> HoldsEpoll(wk, fd);
    assert forall fd :: InSlot(wk, fd) ==> fd != wk.pc.fd;
    assert Holding(wk', mine');
    assert Interested(sv, wk', mine', interest);
    forall j | wk.pos <= j < |wk.batch|
      ensures Current(sv, wk', mine', reported, j)
    {
      assert Current(sv, wk, mine, reported, j);
    }
    forall j | 0 <= j < |wk.table|
      ensures SlotTrue(sv, mine', conns, wk.table[j]) && Marked(sv, wk', j)
    {
      assert SlotTrue(sv, mine, conns, wk.table[j]) && Marked(sv, wk, j);
    }
  }

  /** The connection of slot `i` got the next `n` bytes of the payload. */
  ghost predicate Pushed(sv: Server, conns: seq<Connection>, conns': seq<Connection>, c: nat, offset: nat, n: nat) {
    && |conns'| == |conns| && c < |conns| && offset + n <= |sv.payload|
    && conns'[c].accepted == conns[c].accepted + sv.payload[offset..offset + n]
    && forall d :: 0 <= d < |conns| && d != c ==> conns'[d].accepted == conns[d].accepted
  }

  lemma SendKeeps(sv: Server, wk: Worker, mine: map<Fd, Resource>, interest: map<Fd, Resource>,
                  reported: seq<Resource>, conns: seq<Connection>, conns': seq<Connection>, r: Reply)
    requires WorkerOk(sv, wk, mine, interest, reported, conns) && wk.pc.Sending?
    requires r.ret <= |sv.payload| - wk.table[wk.pc.index].sent
    requires SlotTrue(sv, mine, conns, wk.table[wk.pc.index])
    requires if r.ret > 0
             then Pushed(sv, conns, conns', mine[wk.table[wk.pc.index].fd].conn, wk.table[wk.pc.index].sent, r.ret)
             else conns' == conns
    requires forall f, g :: f in mine && g in mine && f != g && mine[f].Peer? && mine[g].Peer? ==>
        mine[f].conn != mine[g].conn
    ensures WorkerOk(sv, OnReply(sv.Cfg(), wk, r), mine, interest, reported, conns')
  {
    var wk' := OnReply(sv.Cfg(), wk, r);
    SendShape(sv, wk, wk', mine, interest, reported);
    SendStreams(sv, wk, wk', mine, conns, conns', r);
  }

  lemma SendStreams(sv: Server, wk: Worker, wk': Worker, mine: map<Fd, Resource>, conns: seq<Connection>,
                    conns': seq<Connection>, r: Reply)
    requires wk.WellFormed() && wk.pc.Sending? && wk' == OnReply(sv.Cfg(), wk, r)
    requires Distinct(wk.table) && Streaming(sv, wk, mine, conns)
    requires r.ret <= |sv.payload| - wk.table[wk.pc.index].sent
    requires SlotTrue(sv, mine, conns, wk.table[wk.pc.index])
    requires if r.ret > 0
             then Pushed(sv, conns, conns', mine[wk.table[wk.pc.index].fd].conn, wk.table[wk.pc.index].sent, r.ret)
             else conns' == conns
    requires forall f, g :: f in mine && g in mine && f != g && mine[f].Peer? && mine[g].Peer? ==>
        mine[f].conn != mine[g].conn
    ensures Streaming(sv, wk', mine, conns')
  {
  }

  /** A send step changes offsets, never descriptors. */
  lemma SendShape(sv: Server, wk: Worker, wk': Worker, mine: map<Fd, Resource>, interest: map<Fd, Resource>,
                  reported: seq<Resource>)
    requires wk.WellFormed() && wk'.WellFormed() && wk.pc.Sending?
    requires Holding(wk, mine) && Interested(sv, wk, mine, interest) && Batched(sv, wk, mine, reported)
    requires |wk'.table| == |wk.table| && forall j :: 0 <= j < |wk.table| ==> wk'.table[j].fd == wk.table[j].fd
    requires wk'.epollFd == wk.epollFd && wk'.batch == wk.batch
    requires if wk'.pc.Deleting? then wk'.pos == wk.pos && wk'.pc.index == wk.pc.index
             else wk'.pc.Dispatching? && wk'.pos == wk.pos + 1
    ensures Holding(wk', mine) && Interested(sv, wk', mine, interest) && Batched(sv, wk', mine, reported)
  {
    assert forall fd :: InSlot(wk', fd) <==> InSlot(wk, fd);
    assert forall fd :: HoldsEpoll(wk', fd) <==> HoldsEpoll(wk, fd);
    forall j | wk'.pos <= j < |wk.batch|
      ensures Current(sv, wk', mine, reported, j)
    {
      assert Current(sv, wk, mine, reported, j);
    }
  }

  lemma DeleteKeeps(sv: Server, wk: Worker, mine: map<Fd, Resource>, interest: map<Fd, Resource>,
                    reported: seq<Resource>, conns: seq<Connection>, r: Reply)
    requires WorkerOk(sv, wk, mine, interest, reported, conns) && wk.pc.Deleting?
    ensures WorkerOk(sv, OnReply(sv.Cfg(), wk, r), mine, interest - {wk.table[wk.pc.index].fd}, reported, conns)
  {
    var wk' := OnReply(sv.Cfg(), wk, r);
    assert forall fd :: InSlot(wk', fd) <==> InSlot(wk, fd);
    assert forall fd :: HoldsEpoll(wk', fd) <==> HoldsEpoll(wk, fd);
    assert Holding(wk', mine);
    assert HoldsClient(wk, wk.table[wk.pc.index].fd);
    forall j | wk.pos <= j < |wk.batch|
      ensures Current(sv, wk', mine, reported, j)
    {
      assert Current(sv, wk, mine, reported, j);
    }
    assert forall j :: 0 <= j < |wk.table| && Marked(sv, wk, j) ==> Marked(sv, wk', j);
  }

  lemma CloseKeeps(sv: Server, wk: Worker, mine: map<Fd, Resource>, interest: map<Fd, Resource>,
                   reported: seq<Resource>, conns: seq<Connection>, r: Reply)
    requires WorkerOk(sv, wk, mine, interest, reported, conns) && wk.pc.Closing?
    ensures WorkerOk(sv, OnReply(sv.Cfg(), wk, r), mine - {wk.table[wk.pc.index].fd}, interest, reported, conns)
  {
    hide Batched; hide Streaming;
    var wk' := OnReply(sv.Cfg(), wk, r);
    var fd := wk.table[wk.pc.index].fd;
    var mine' := mine - {fd};
    RemainingSlots(wk, wk');
    assert forall g :: HoldsEpoll(wk', g) <==> HoldsEpoll(wk, g);
    assert HoldsClient(wk, fd);
    assert Holding(wk', mine');
    assert Interested(sv, wk', mine', interest);
    CloseKeepsStreams(sv, wk, wk', mine, mine', interest, reported, conns);
  }

  lemma RemainingSlots(wk: Worker, wk': Worker)
    requires wk.pc.Closing? && wk.pc.index < |wk.table| && Distinct(wk.table)
    requires wk' == NextEvent(wk.(table := RemoveAt(wk.table, wk.pc.index)))
    ensures Distinct(wk'.table)
    ensures forall g :: InSlot(wk', g) <==> InSlot(wk, g) && g != wk.table[wk.pc.index].fd
  {
    RemovedSlots(wk.table, wk.pc.index);
    assert forall g :: InSlot(wk', g) <==> Holds(wk'.table, g);
    assert forall g :: InSlot(wk, g) <==> Holds(wk.table, g);
  }

  lemma CloseKeepsStreams(sv: Server, wk: Worker, wk': Worker, mine: map<Fd, Resource>, mine': map<Fd, Resource>,
                          interest: map<Fd, Resource>, reported: seq<Resource>, conns: seq<Connection>)
    requires WorkerOk(sv, wk, mine, interest, reported, conns) && wk.pc.Closing?
    requires wk' == NextEvent(wk.(table := RemoveAt(wk.table, wk.pc.index)))
    requires mine' == mine - {wk.table[wk.pc.index].fd}
    requires forall g :: InSlot(wk', g) <==> InSlot(wk, g) && g != wk.table[wk.pc.index].fd
    ensures Batched(sv, wk', mine', reported) && Streaming(sv, wk', mine', conns)
  {
    hide Interested; hide InSlot;
    var i := wk.pc.index;
    forall j | wk'.pos <= j < |wk.batch|
      ensures Current(sv, wk', mine', reported, j)
    {
      assert Current(sv, wk, mine, reported, j);
    }
    forall j | 0 <= j < |wk'.table|
      ensures SlotTrue(sv, mine', conns, wk'.table[j]) && Marked(sv, wk', j)
    {
      var k := if j == i then |wk.table| - 1 else j;
      assert wk'.table[j] == wk.table[k] && k != i;
      assert SlotTrue(sv, mine, conns, wk.table[k]) && Marked(sv, wk, k);
    }
  }

  lemma RemovedSlots(t: seq<Slot>, i: nat)
    requires Distinct(t) && i < |t|
    ensures Distinct(RemoveAt(t, i))
    ensures forall g :: Holds(RemoveAt(t, i), g) <==> Holds(t, g) && g != t[i].fd
  {
  }

  lemma CleanKeeps(sv: Server, wk: Worker, mine: map<Fd, Resource>, interest: map<Fd, Resource>,
                   reported: seq<Resource>, conns: seq<Connection>, r: Reply)
    requires WorkerOk(sv, wk, mine, interest, reported, conns) && wk.pc.Cleaning?
    ensures WorkerOk(sv, OnReply(sv.Cfg(), wk, r), mine - {wk.table[wk.pc.index].fd}, interest, reported, conns)
  {
  }

  lemma CloseEpollKeeps(sv: Server, wk: Worker, mine: map<Fd, Resource>, interest: map<Fd, Resource>,
                        reported: seq<Resource>, conns: seq<Connection>, r: Reply)
    requires WorkerOk(sv, wk, mine, interest, reported, conns) && wk.pc.ClosingEpoll?
    ensures WorkerOk(sv, OnReply(sv.Cfg(), wk, r), mine - {wk.epollFd}, interest, reported, conns)
  {
  }
}
