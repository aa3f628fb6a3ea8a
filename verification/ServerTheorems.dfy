/** What the invariant means: every run of the file server, from its start. */
module ServerTheorems {
  import opened ClientTable
  import opened WorkerLoop
  import opened FileServer
  import opened ServerInvariant
  import opened ServerSteps

  /** `s` is reached from the start by `acts`. */
  ghost predicate Reaches(sv: Server, s0: State, acts: seq<Action>, s: State) {
    Init(sv, s0) && Run(sv, s0, acts) && s == After(sv, s0, acts)
  }

  lemma Reached(sv: Server, s0: State, acts: seq<Action>, s: State)
    requires Reaches(sv, s0, acts, s)
    ensures Inv(sv, s)
  {
    InitInv(sv, s0);
    RunKeeps(sv, s0, acts);
  }

  lemma {:induction false} RunSplit(sv: Server, s: State, a: seq<Action>, b: seq<Action>)
    requires Shaped(s)
    ensures Run(sv, s, a + b) <==> Run(sv, s, a) && Run(sv, After(sv, s, a), b)
    ensures Run(sv, s, a + b) ==> After(sv, s, a + b) == After(sv, After(sv, s, a), b)
    decreases a
  {
    if a == [] {
      assert a + b == b;
    } else {
      assert (a + b)[0] == a[0] && (a + b)[1..] == a[1..] + b;
      if Enabled(sv, s, a[0]) {
        RunSplit(sv, Apply(sv, s, a[0]), a[1..], b);
      }
    }
  }

  // ---------------------------------------------------------------------------
  // Events and the connections they were reported for
  // ---------------------------------------------------------------------------

  /** Batch entry `j` of worker `w` is in a slot and names what it was reported for. */
  ghost predicate EventHits(s: State, w: nat, j: nat)
    requires Shaped(s) && w < |s.workers| && j < |s.workers[w].batch| && |s.reported[w]| == |s.workers[w].batch|
  {
    var wk := s.workers[w];
    var fd := wk.batch[j].fd;
    && Find(wk.table, fd) < |wk.table|
    && ConnectedTo(s, fd)
    && s.open[fd] == s.reported[w][j]
    && s.open[fd].owner == w
  }

  /** In every interleaving, every entry still to be handled hits the connection it was
      reported for, and so does the send, the deletion and the close that it leads to. */
  lemma {:induction false} EventsHitTheirConnections(sv: Server, s0: State, acts: seq<Action>, s: State, w: nat)
    requires Reaches(sv, s0, acts, s) && w < |s.workers| && InBatch(s.workers[w].pc)
    ensures |s.reported[w]| == |s.workers[w].batch|
    ensures forall j :: s.workers[w].pos <= j < |s.workers[w].batch| && s.workers[w].batch[j].fd != sv.listenFd ==>
        EventHits(s, w, j)
    ensures OnSlot(s.workers[w].pc) ==>
              && s.workers[w].pos < |s.workers[w].batch| && s.workers[w].pc.index < |s.workers[w].table|
              && s.workers[w].batch[s.workers[w].pos].fd != sv.listenFd
              && s.workers[w].table[s.workers[w].pc.index].fd == s.workers[w].batch[s.workers[w].pos].fd
  {
    Reached(sv, s0, acts, s);
    assert Good(sv, s, w);
    var wk := s.workers[w];
    forall j | wk.pos <= j < |wk.batch| && wk.batch[j].fd != sv.listenFd
      ensures EventHits(s, w, j)
    {
      assert Current(sv, wk, Mine(s.open, w), s.reported[w], j);
      var fd := wk.batch[j].fd;
      var i :| LiveFrom(wk) <= i < |wk.table| && wk.table[i].fd == fd;
      assert Find(wk.table, fd) <= i;
      SlotIsOpen(sv, s, w, i);
    }
    if OnSlot(wk.pc) {
      SlotIsOpen(sv, s, w, wk.pc.index);
    }
  }

  /** The branch that skips an event whose descriptor has no slot is never taken. */
  lemma SkipIsUnreachable(sv: Server, s0: State, acts: seq<Action>, s: State, w: nat)
    requires Reaches(sv, s0, acts, s) && w < |s.workers| && s.workers[w].pc.Dispatching?
    requires s.workers[w].pos < |s.workers[w].batch|
    ensures var wk := s.workers[w];
            wk.batch[wk.pos].fd == sv.listenFd || Find(wk.table, wk.batch[wk.pos].fd) < |wk.table|
  {
    EventsHitTheirConnections(sv, s0, acts, s, w);
  }

  /** Along `acts`, worker `w` never gets a reply from `epoll_wait`. */
  ghost predicate NoWait(sv: Server, s: State, acts: seq<Action>, w: nat)
    requires Shaped(s) && Run(sv, s, acts) && w < |s.workers|
    decreases acts
  {
    acts != [] ==>
      && !(acts[0].Invoke? && acts[0].w == w && s.workers[w].pc.Waiting?)
      && NoWait(sv, Apply(sv, s, acts[0]), acts[1..], w)
  }

  lemma {:induction false} BatchIsFixed(sv: Server, s: State, acts: seq<Action>, w: nat)
    requires Inv(sv, s) && Run(sv, s, acts) && w < |s.workers| && NoWait(sv, s, acts, w)
    ensures After(sv, s, acts).reported[w] == s.reported[w]
    ensures After(sv, s, acts).workers[w].batch == s.workers[w].batch
    decreases acts
  {
    if acts != [] {
      OnlyWaitReports(sv, s, acts[0], w);
      StepKeeps(sv, s, acts[0]);
      BatchIsFixed(sv, Apply(sv, s, acts[0]), acts[1..], w);
    }
  }

  lemma OnlyWaitReports(sv: Server, s: State, a: Action, w: nat)
    requires Shaped(s) && Enabled(sv, s, a) && w < |s.workers|
    requires !(a.Invoke? && a.w == w && s.workers[w].pc.Waiting?)
    ensures Apply(sv, s, a).reported[w] == s.reported[w]
    ensures Apply(sv, s, a).workers[w].batch == s.workers[w].batch
  {
    hide KernelEffect;
    if a.Invoke? { ReportsOf(sv, s, a.w, Request(sv.Cfg(), s.workers[a.w]), a.r, w); }
  }

  lemma ReportsOf(sv: Server, s: State, v: nat, call: Call, r: Reply, w: nat)
    requires Shaped(s) && v < |s.workers| && w < |s.workers| && Possible(s, v, call, r)
    requires !call.EpollWait? || v != w
    ensures KernelEffect(sv, s, v, call, r).reported[w] == s.reported[w]
  {
  }

  /** Descriptor numbers may be freed and given out again by any worker while a batch is
      handled: an entry still to be handled names what its number named when `epoll_wait`
      returned it. */
  lemma {:induction false} DescriptorReuseIsHarmless(sv: Server, s0: State, before: seq<Action>, w: nat, r: Reply,
                                                     after: seq<Action>,
                                  j: nat)
    requires Init(sv, s0) && w < |s0.workers| && Run(sv, s0, before)
    requires var s1 := After(sv, s0, before);
             && Enabled(sv, s1, Invoke(w, r)) && s1.workers[w].pc.Waiting? && r.ret != -1
             && Run(sv, Apply(sv, s1, Invoke(w, r)), after)
             && NoWait(sv, Apply(sv, s1, Invoke(w, r)), after, w)
             && var wk := After(sv, Apply(sv, s1, Invoke(w, r)), after).workers[w];
                InBatch(wk.pc) && wk.pos <= j < |r.events|
    ensures var s1 := After(sv, s0, before);
            var s2 := After(sv, Apply(sv, s1, Invoke(w, r)), after);
            var fd := r.events[j].fd;
            && fd in s1.open && fd in s2.open && s2.open[fd] == s1.open[fd]
  {
    hide Holding; hide Interested; hide Streaming;
    var s1 := After(sv, s0, before);
    Reached(sv, s0, before, s1);
    var s1' := Apply(sv, s1, Invoke(w, r));
    StepKeeps(sv, s1, Invoke(w, r));
    var s2 := After(sv, s1', after);
    RunKeeps(sv, s1', after);
    BatchIsFixed(sv, s1', after, w);
    assert Watched(s1, w, r.events[j].fd);
    assert Good(sv, s2, w);
    assert Current(sv, s2.workers[w], Mine(s2.open, w), s2.reported[w], j);
    assert DescriptorOk(sv, s1, r.events[j].fd);
    if r.events[j].fd == sv.listenFd {
      assert DescriptorOk(sv, s2, sv.listenFd);
    }
  }

  // ---------------------------------------------------------------------------
  // Every connection is in exactly one place
  // ---------------------------------------------------------------------------

  datatype Place =
    | NotConnected
    | InQueue(i: nat)
    | InAccept(w: nat)
    | InTable(w: nat, slot: nat)
    | Done

  ghost predicate IsAt(s: State, c: nat, p: Place)
    requires Shaped(s) && c < |s.conns|
  {
    match p
    case NotConnected => s.conns[c].phase.Unconnected?
    case InQueue(i) => i < |s.queue| && s.queue[i] == c
    case InAccept(w) => w < |s.workers| && InFlight(s.workers[w].pc) && ConnectedTo(s, s.workers[w].pc.fd)
        && s.open[s.workers[w].pc.fd].conn == c
    case InTable(w, j) =>
      && w < |s.workers| && LiveFrom(s.workers[w]) <= j < |s.workers[w].table|
      && ConnectedTo(s, s.workers[w].table[j].fd) && s.open[s.workers[w].table[j].fd].conn == c
    case Done => s.conns[c].phase.Closed?
  }

  lemma PlaceExists(sv: Server, s: State, c: nat) returns (p: Place)
    requires Inv(sv, s) && c < |s.conns|
    ensures IsAt(s, c, p)
  {
    assert PhaseOk(s, c);
    match s.conns[c].phase {
      case Unconnected => p := NotConnected;
      case Closed(_) => p := Done;
      case Queued =>
        var i :| 0 <= i < |s.queue| && s.queue[i] == c;
        p := InQueue(i);
      case Open(fd) =>
        assert DescriptorOk(sv, s, fd);
        var w := s.open[fd].owner;
        assert Good(sv, s, w);
        assert fd in Mine(s.open, w);
        assert HoldsClient(s.workers[w], fd);
        if InSlot(s.workers[w], fd) {
          var j :| LiveFrom(s.workers[w]) <= j < |s.workers[w].table| && s.workers[w].table[j].fd == fd;
          p := InTable(w, j);
        } else {
          p := InAccept(w);
        }
    }
  }

  lemma PlaceIsUnique(sv: Server, s: State, c: nat, p: Place, q: Place)
    requires Inv(sv, s) && c < |s.conns| && IsAt(s, c, p) && IsAt(s, c, q)
    ensures p == q
  {
    PlaceDescriptor(sv, s, c, p);
    PlaceDescriptor(sv, s, c, q);
    if p.InAccept? || p.InTable? {
      assert Good(sv, s, p.w);
    }
  }

  /** A place in a worker is a place of that worker's own descriptor of the connection. */
  lemma PlaceDescriptor(sv: Server, s: State, c: nat, p: Place)
    requires Inv(sv, s) && c < |s.conns| && IsAt(s, c, p)
    ensures p.InAccept? ==> s.conns[c].phase == Open(s.workers[p.w].pc.fd) && s.open[s.workers[p.w].pc.fd].owner == p.w
    ensures p.InTable? ==>
        s.conns[c].phase == Open(s.workers[p.w].table[p.slot].fd)
        && s.open[s.workers[p.w].table[p.slot].fd].owner == p.w
    ensures p.InQueue? ==> s.conns[c].phase == Queued
  {
    match p {
      case InAccept(w) => InFlightIsOpen(sv, s, w);
      case InTable(w, j) => SlotIsOpen(sv, s, w, j);
      case _ =>
    }
  }

  lemma ExactlyOnePlace(sv: Server, s0: State, acts: seq<Action>, s: State, c: nat)
    requires Reaches(sv, s0, acts, s) && c < |s.conns|
    ensures exists p :: IsAt(s, c, p)
    ensures forall p, q :: IsAt(s, c, p) && IsAt(s, c, q) ==> p == q
  {
    Reached(sv, s0, acts, s);
    var p := PlaceExists(sv, s, c);
    forall p, q | IsAt(s, c, p) && IsAt(s, c, q)
      ensures p == q
    {
      PlaceIsUnique(sv, s, c, p, q);
    }
  }

  /** Live slots of two workers never hold the same descriptor number. */
  lemma TablesAreDisjoint(sv: Server, s0: State, acts: seq<Action>, s: State, v: nat, w: nat, i: nat, j: nat)
    requires Reaches(sv, s0, acts, s) && v < |s.workers| && w < |s.workers|
    requires LiveFrom(s.workers[v]) <= i < |s.workers[v].table| && LiveFrom(s.workers[w]) <= j < |s.workers[w].table|
    ensures s.workers[v].table[i].fd == s.workers[w].table[j].fd <==> v == w && i == j
  {
    Reached(sv, s0, acts, s);
    SlotIsOpen(sv, s, v, i);
    SlotIsOpen(sv, s, w, j);
    assert Good(sv, s, v);
  }

  ghost function Descriptors(t: seq<Slot>): (fds: set<Fd>)
    ensures forall fd :: fd in fds <==> Holds(t, fd)
  {
    set i | 0 <= i < |t| :: t[i].fd
  }

  /** Between two removals the interest set of a worker is its table and the listener. */
  lemma InterestIsTable(sv: Server, s0: State, acts: seq<Action>, s: State, w: nat)
    requires Reaches(sv, s0, acts, s) && w < |s.workers|
    requires Serving(s.workers[w].pc) && !s.workers[w].pc.Closing?
    ensures s.interest[w].Keys == {sv.listenFd} + Descriptors(s.workers[w].table)
    ensures forall fd :: fd in s.interest[w] ==> Watched(s, w, fd)
  {
    Reached(sv, s0, acts, s);
    assert Good(sv, s, w);
    var wk := s.workers[w];
    forall fd | fd in s.interest[w]
      ensures Watched(s, w, fd)
    {
      if fd != sv.listenFd {
        assert HoldsClient(wk, fd);
      }
    }
    forall fd
      ensures fd in s.interest[w].Keys <==> fd in {sv.listenFd} + Descriptors(wk.table)
    {
      assert InSlot(wk, fd) <==> Holds(wk.table, fd);
      assert !BeingClosed(wk, fd);
    }
  }

  // ---------------------------------------------------------------------------
  // Descriptors
  // ---------------------------------------------------------------------------

  /** Every call that names a descriptor names an open one that the caller obtained itself. */
  lemma CallsNameOwnDescriptors(sv: Server, s0: State, acts: seq<Action>, s: State, w: nat)
    requires Reaches(sv, s0, acts, s) && w < |s.workers| && s.workers[w].AtCall()
    ensures s.workers[w].WellFormed()
    ensures match Request(sv.Cfg(), s.workers[w])
            case Close(fd) => fd in s.open && Owns(s.open[fd], w)
            case Send(fd, offset, length) => ConnectedTo(s, fd) && s.open[fd].owner == w && 0 < length
                && offset + length == |sv.payload|
            case SetNonblocking(fd) => ConnectedTo(s, fd) && s.open[fd].owner == w
            case EpollAdd(e, fd) => e in s.open && s.open[e] == Epoll(w)
                && (fd == sv.listenFd || (ConnectedTo(s, fd) && s.open[fd].owner == w && fd !in s.interest[w]))
            case EpollDelete(e, fd) => e in s.open && s.open[e] == Epoll(w) && Watched(s, w, fd) && ConnectedTo(s, fd)
                && s.open[fd].owner == w
            case EpollWait(e) => e in s.open && s.open[e] == Epoll(w)
            case Accept(l) => l in s.open && s.open[l] == Listener
            case EpollCreate => true
  {
    Reached(sv, s0, acts, s);
    var wk := s.workers[w];
    assert Good(sv, s, w);
    if !wk.pc.Starting? { EpollIsOpen(sv, s, w); }
    if InFlight(wk.pc) { InFlightIsOpen(sv, s, w); }
    if OnSlot(wk.pc) || wk.pc.Cleaning? {
      SlotIsOpen(sv, s, w, wk.pc.index);
      assert InSlot(wk, wk.table[wk.pc.index].fd);
      assert SlotTrue(sv, Mine(s.open, w), s.conns, wk.table[wk.pc.index]);
    }
  }

  /** A worker that has exited has nothing left open. */
  lemma ExitedHoldsNothing(sv: Server, s0: State, acts: seq<Action>, s: State, w: nat)
    requires Reaches(sv, s0, acts, s) && w < |s.workers| && s.workers[w].pc.Exited?
    ensures forall fd :: fd in s.open ==> !Owns(s.open[fd], w)
  {
    Reached(sv, s0, acts, s);
    assert Good(sv, s, w);
    forall fd | fd in s.open
      ensures !Owns(s.open[fd], w)
    {
      assert !HoldsClient(s.workers[w], fd) && !HoldsEpoll(s.workers[w], fd);
      assert Owns(s.open[fd], w) ==> fd in Mine(s.open, w);
    }
  }

  /** Once the workers are joined, closing the listening socket leaves nothing open. */
  lemma JoinedHoldsNothing(sv: Server, s0: State, acts: seq<Action>, s: State)
    requires Reaches(sv, s0, acts, s) && forall w :: 0 <= w < |s.workers| ==> s.workers[w].pc.Exited?
    ensures s.open == map[sv.listenFd := Listener]
  {
    Reached(sv, s0, acts, s);
    forall fd | fd in s.open
      ensures fd == sv.listenFd
    {
      assert DescriptorOk(sv, s, fd);
      if !s.open[fd].Listener? {
        ExitedHoldsNothing(sv, s0, acts, s, s.open[fd].owner);
      }
    }
  }

  // ---------------------------------------------------------------------------
  // Closed exactly once
  // ---------------------------------------------------------------------------

  ghost predicate IsOpen(s: State, res: Resource) {
    exists fd :: fd in s.open && s.open[fd] == res
  }

  /** Steps that obtain `res`, and steps that close it, along a run. */
  ghost function Obtained(sv: Server, s: State, acts: seq<Action>, res: Resource): nat
    requires Shaped(s) && Run(sv, s, acts)
    decreases acts
  {
    if acts == [] then 0
    else
      var s' := Apply(sv, s, acts[0]);
      (if acts[0].Invoke? && acts[0].r.ret in s'.open && acts[0].r.ret !in s.open && s'.open[acts[0].r.ret] == res
          then 1 else 0)
      + Obtained(sv, s', acts[1..], res)
  }

  ghost predicate Closes(sv: Server, s: State, a: Action, res: Resource)
    requires Shaped(s) && Enabled(sv, s, a)
  {
    a.Invoke? && var call := Request(sv.Cfg(), s.workers[a.w]);
                 call.Close? && call.fd in s.open && s.open[call.fd] == res
  }

  ghost function ClosedTimes(sv: Server, s: State, acts: seq<Action>, res: Resource): nat
    requires Shaped(s) && Run(sv, s, acts)
    decreases acts
  {
    if acts == [] then 0
    else (if Closes(sv, s, acts[0], res) then 1 else 0) + ClosedTimes(sv, Apply(sv, s, acts[0]), acts[1..], res)
  }

  /** No two descriptors stand for the same resource. */
  lemma OneDescriptor(sv: Server, s: State, f: Fd, g: Fd)
    requires Inv(sv, s) && f in s.open && g in s.open && s.open[f] == s.open[g]
    ensures f == g
  {
    assert DescriptorOk(sv, s, f) && DescriptorOk(sv, s, g);
    if s.open[f].Epoll? {
      var w := s.open[f].owner;
      assert Good(sv, s, w);
      assert f in Mine(s.open, w) && g in Mine(s.open, w);
      assert HoldsEpoll(s.workers[w], f) && HoldsEpoll(s.workers[w], g);
    }
  }

  /** `res` can still be obtained: its connection is not accepted yet, its worker not started. */
  ghost predicate Ahead(s: State, res: Resource) {
    match res
    case Listener => false
    case Epoll(w) => w < |s.workers| && s.workers[w].pc.Starting?
    case Peer(c, _) => c < |s.conns| && (s.conns[c].phase.Unconnected? || s.conns[c].phase.Queued?)
  }

  lemma StepBalance(sv: Server, s: State, a: Action, res: Resource)
    requires Inv(sv, s) && Enabled(sv, s, a) && !res.Listener?
    ensures var s' := Apply(sv, s, a);
            var got := if a.Invoke? && a.r.ret in s'.open && a.r.ret !in s.open && s'.open[a.r.ret] == res
                then 1 else 0;
            var lost := if Closes(sv, s, a, res) then 1 else 0;
            && (if IsOpen(s', res) then 1 else 0) == (if IsOpen(s, res) then 1 else 0) + got - lost
            && (got == 1 ==> Ahead(s, res) && !Ahead(s', res))
            && (Ahead(s', res) ==> Ahead(s, res))
  {
    hide Holding; hide Interested; hide Batched; hide Streaming;
    var s' := Apply(sv, s, a);
    if a.Invoke? {
      var pc := s.workers[a.w].pc;
      if pc.Starting? || pc.Accepting? {
        ObtainBalance(sv, s, a.w, a.r, res);
      } else if AtClose(pc) {
        CloseBalance(sv, s, a.w, a.r, res);
      } else {
        SameDescriptors(sv, s, a.w, a.r);
      }
    } else {
      assert s'.open == s.open;
    }
  }

  lemma SameDescriptors(sv: Server, s: State, w: nat, r: Reply)
    requires CanInvoke(sv, s, w, r) && !s.workers[w].pc.Starting? && !s.workers[w].pc.Accepting?
        && !AtClose(s.workers[w].pc)
    ensures var s' := Apply(sv, s, Invoke(w, r));
            && s'.open == s.open
            && (forall c :: 0 <= c < |s.conns| ==> s'.conns[c].phase == s.conns[c].phase)
            && (forall v :: 0 <= v < |s.workers| && s'.workers[v].pc.Starting? ==> s.workers[v].pc.Starting?)
            && (forall res :: !Closes(sv, s, Invoke(w, r), res))
  {
  }

  lemma ObtainBalance(sv: Server, s: State, w: nat, r: Reply, res: Resource)
    requires CanInvoke(sv, s, w, r) && !res.Listener? && (s.workers[w].pc.Starting? || s.workers[w].pc.Accepting?)
    ensures var s' := Apply(sv, s, Invoke(w, r));
            var got := r.ret in s'.open && r.ret !in s.open && s'.open[r.ret] == res;
            && IsOpen(s', res) == (IsOpen(s, res) || got)
            && (got ==> !IsOpen(s, res) && Ahead(s, res) && !Ahead(s', res))
            && (Ahead(s', res) ==> Ahead(s, res))
  {
    hide Interested; hide Batched; hide Streaming;
    var s' := Apply(sv, s, Invoke(w, r));
    assert Good(sv, s, w);
    if IsOpen(s, res) {
      var fd :| fd in s.open && s.open[fd] == res;
      assert DescriptorOk(sv, s, fd);
      assert s'.open[fd] == res;
      if res.Epoll? {
        assert Good(sv, s, res.owner);
        assert fd in Mine(s.open, res.owner);
        assert HoldsEpoll(s.workers[res.owner], fd);
      }
    }
  }

  lemma CloseBalance(sv: Server, s: State, w: nat, r: Reply, res: Resource)
    requires CanInvoke(sv, s, w, r) && !res.Listener? && AtClose(s.workers[w].pc)
    ensures var s' := Apply(sv, s, Invoke(w, r));
            && IsOpen(s', res) == (IsOpen(s, res) && !Closes(sv, s, Invoke(w, r), res))
            && (Closes(sv, s, Invoke(w, r), res) ==> IsOpen(s, res))
            && (forall fd :: fd in s'.open ==> fd in s.open)
            && (Ahead(s', res) ==> Ahead(s, res))
  {
    hide Holding; hide Interested; hide Batched; hide Streaming;
    var s' := Apply(sv, s, Invoke(w, r));
    CloseLocal(sv, s, w, r);
    var fd := Request(sv.Cfg(), s.workers[w]).fd;
    assert s'.open == s.open - {fd};
    forall g | g in s.open && s.open[g] == res
      ensures g == fd || g in s'.open
      ensures s.open[fd] == res ==> g == fd
    {
      if s.open[fd] == res {
        OneDescriptor(sv, s, fd, g);
      }
    }
  }

  /** Over a run, what was obtained and not closed is what is open at the end. */
  lemma {:induction false} Balance(sv: Server, s: State, acts: seq<Action>, res: Resource)
    requires Inv(sv, s) && Run(sv, s, acts) && !res.Listener?
    ensures (if IsOpen(s, res) then 1 else 0) + Obtained(sv, s, acts, res)
            == ClosedTimes(sv, s, acts, res) + (if IsOpen(After(sv, s, acts), res) then 1 else 0)
    ensures Obtained(sv, s, acts, res) <= if Ahead(s, res) then 1 else 0
    decreases acts
  {
    if acts != [] {
      StepBalance(sv, s, acts[0], res);
      StepKeeps(sv, s, acts[0]);
      Balance(sv, Apply(sv, s, acts[0]), acts[1..], res);
    }
  }

  /** Whatever an exited worker obtained on the way, its epoll descriptor or a connection,
      it obtained once and it was closed exactly once. */
  lemma ClosedExactlyOnce(sv: Server, s0: State, acts: seq<Action>, s: State, res: Resource)
    requires Reaches(sv, s0, acts, s) && !res.Listener?
    requires res.owner < |s.workers| && s.workers[res.owner].pc.Exited?
    ensures Obtained(sv, s0, acts, res) <= 1
    ensures ClosedTimes(sv, s0, acts, res) == Obtained(sv, s0, acts, res)
  {
    InitInv(sv, s0);
    Balance(sv, s0, acts, res);
    ExitedHoldsNothing(sv, s0, acts, s, res.owner);
  }

  /** In every run, a connection is closed at most once, whoever held it. */
  lemma NeverClosedTwice(sv: Server, s0: State, acts: seq<Action>, s: State, res: Resource)
    requires Reaches(sv, s0, acts, s) && !res.Listener?
    ensures ClosedTimes(sv, s0, acts, res) <= 1
    ensures ClosedTimes(sv, s0, acts, res) == 1 <==> Obtained(sv, s0, acts, res) == 1 && !IsOpen(s, res)
  {
    InitInv(sv, s0);
    Balance(sv, s0, acts, res);
  }

  // ---------------------------------------------------------------------------
  // Each worker is the nested loops on its own replies
  // ---------------------------------------------------------------------------

  /** The replies worker `w` got along a run. */
  ghost function RepliesTo(acts: seq<Action>, w: nat): seq<Reply>
    decreases acts
  {
    if acts == [] then []
    else Fed(acts[0], w) + RepliesTo(acts[1..], w)
  }

  function Fed(a: Action, w: nat): seq<Reply> {
    if a.Invoke? && a.w == w then [a.r] else []
  }

  /** The calls worker `w` made along a run. */
  ghost function CallsOf(sv: Server, s: State, acts: seq<Action>, w: nat): seq<Call>
    requires Shaped(s) && Run(sv, s, acts) && w < |s.workers|
    decreases acts
  {
    if acts == [] then []
    else Made(sv, s, acts[0], w) + CallsOf(sv, Apply(sv, s, acts[0]), acts[1..], w)
  }

  function Made(sv: Server, s: State, a: Action, w: nat): seq<Call>
    requires Shaped(s) && Enabled(sv, s, a)
  {
    if a.Invoke? && a.w == w then [Request(sv.Cfg(), s.workers[w])] else []
  }

  /** Among any other workers and clients, worker `w` makes the calls and comes to the place
      that `AcceptLoop` makes and comes to on the same replies. */
  lemma {:induction false} WorkerIsItsOwnLoop(sv: Server, s: State, acts: seq<Action>, w: nat, rest: seq<Reply>)
    requires Shaped(s) && Run(sv, s, acts) && w < |s.workers| && s.workers[w].WellFormed()
    ensures After(sv, s, acts).workers[w].WellFormed()
    ensures Exec(sv.Cfg(), s.workers[w], RepliesTo(acts, w) + rest)
            == Continue(sv.Cfg(), CallsOf(sv, s, acts, w), After(sv, s, acts).workers[w], rest)
    decreases acts
  {
    hide Exec; hide Apply; hide Enabled; hide Fed; hide Made;
    if acts == [] {
      assert RepliesTo(acts, w) + rest == rest;
      assert CallsOf(sv, s, acts, w) == [];
    } else {
      var s' := Apply(sv, s, acts[0]);
      OwnStep(sv, s, acts[0], w, RepliesTo(acts[1..], w) + rest);
      WorkerIsItsOwnLoop(sv, s', acts[1..], w, rest);
      assert RepliesTo(acts, w) + rest == Fed(acts[0], w) + (RepliesTo(acts[1..], w) + rest);
    }
  }

  lemma OwnStep(sv: Server, s: State, a: Action, w: nat, later: seq<Reply>)
    requires Shaped(s) && Enabled(sv, s, a) && w < |s.workers| && s.workers[w].WellFormed()
    ensures Apply(sv, s, a).workers[w].WellFormed()
    ensures Exec(sv.Cfg(), s.workers[w], Fed(a, w) + later)
            == Continue(sv.Cfg(), Made(sv, s, a, w), Apply(sv, s, a).workers[w], later)
  {
    if Fed(a, w) == [] {
      assert Fed(a, w) + later == later;
    } else {
      assert (Fed(a, w) + later)[1..] == later;
    }
  }

  /** In particular, on the replies a worker got in a run, `AcceptLoop` makes the very calls
      that the worker made, and it is where the worker is, up to steps without a call: what is
      proved of the calls of a worker holds of the nested loops. */
  lemma {:induction false} WorkerIsAcceptLoop(sv: Server, s0: State, acts: seq<Action>, s: State, w: nat)
    requires Reaches(sv, s0, acts, s) && w < |s.workers|
    ensures Exec(sv.Cfg(), NEW_WORKER, RepliesTo(acts, w)).calls == CallsOf(sv, s0, acts, w)
    ensures !s.workers[w].pc.Dispatching? ==> Exec(sv.Cfg(), NEW_WORKER, RepliesTo(acts, w)).worker == s.workers[w]
  {
    hide Exec;
    WorkerIsItsOwnLoop(sv, s0, acts, w, []);
    assert RepliesTo(acts, w) + [] == RepliesTo(acts, w);
    NoRepliesNoCalls(sv.Cfg(), s.workers[w]);
    assert CallsOf(sv, s0, acts, w) + [] == CallsOf(sv, s0, acts, w);
  }

  lemma {:induction false} NoRepliesNoCalls(cfg: Config, w: Worker)
    requires w.WellFormed()
    ensures Exec(cfg, w, []).calls == [] && (!w.pc.Dispatching? ==> Exec(cfg, w, []).worker == w)
    decreases if !w.pc.Dispatching? then 0 else if w.pos < |w.batch| then |w.batch| - w.pos + 1 else 1
  {
    if w.pc.Dispatching? { NoRepliesNoCalls(cfg, Dispatch(cfg, w)); }
  }
}
