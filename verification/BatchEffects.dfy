/** What a worker does about each entry of a batch: which calls it makes on the connection that
    the entry was reported for, and what becomes of that connection. */
module BatchEffects {
  import opened ClientTable
  import opened WorkerLoop
  import opened FileServer
  import opened ServerInvariant
  import opened ServerSteps
  import opened ServerTheorems
  import opened ServedStreams

  // ---------------------------------------------------------------------------
  // Calls on a connection
  // ---------------------------------------------------------------------------

  /** The client descriptor that a call names. */
  function Target(call: Call): (fd: Fd) {
    match call
    case EpollAdd(_, fd) => fd
    case EpollDelete(_, fd) => fd
    case SetNonblocking(fd) => fd
    case Send(fd, _, _) => fd
    case Close(fd) => fd
    case _ => -1
  }

  predicate NamesConnection(s: State, call: Call, c: nat) {
    !call.EpollCreate? && !call.EpollWait? && !call.Accept?
    && ConnectedTo(s, Target(call)) && s.open[Target(call)].conn == c
  }

  /** The call of an action, when it is one on connection `c`. */
  function CallOn(sv: Server, s: State, a: Action, c: nat): seq<Call>
    requires Shaped(s) && Enabled(sv, s, a)
  {
    if a.Invoke? && NamesConnection(s, Request(sv.Cfg(), s.workers[a.w]), c)
    then [Request(sv.Cfg(), s.workers[a.w])]
    else []
  }

  /** The calls on connection `c` along a run, by any worker. */
  ghost function CallsOn(sv: Server, s: State, acts: seq<Action>, c: nat): seq<Call>
    requires Shaped(s) && Run(sv, s, acts)
    decreases acts
  {
    if acts == [] then []
    else CallOn(sv, s, acts[0], c) + CallsOn(sv, Apply(sv, s, acts[0]), acts[1..], c)
  }

  // ---------------------------------------------------------------------------
  // An entry on its way
  // ---------------------------------------------------------------------------

  /** Connection `c` is known to worker `w` as `fd`, of which it was handed `offset` bytes when
      entry `e` was reported. */
  datatype Entry = Entry(w: nat, j: nat, e: Event, c: nat, offset: nat, epollFd: Fd)

  function Removal(x: Entry): seq<Call> {
    [EpollDelete(x.epollFd, x.e.fd), Close(x.e.fd)]
  }

  function Offer(sv: Server, x: Entry): Call {
    Send(x.e.fd, x.offset, if x.offset <= |sv.payload| then |sv.payload| - x.offset else 0)
  }

  /** What an entry leads to: an error or hang-up to the removal of the connection, and nothing
      else; readiness to one send of the rest of the payload, which is followed by the removal if
      it finished the payload or failed; neither to no call at all.  There is nothing to send of
      an empty payload. */
  predicate Handled(sv: Server, x: Entry, calls: seq<Call>, phase: Phase) {
    if x.e.errorOrHangUp then calls == Removal(x) && phase == Closed(HangUp)
    else if !x.e.writable then calls == [] && phase == Phase.Open(x.e.fd)
    else if sv.payload == [] then calls == Removal(x) && phase == Closed(Finished)
    else
      || (calls == [Offer(sv, x)] && phase == Phase.Open(x.e.fd))
      || (calls == [Offer(sv, x)] + Removal(x) && (phase == Closed(Finished) || phase == Closed(SendFailed)))
  }

  /** The calls before a removal for this reason. */
  predicate BeforeRemoval(sv: Server, x: Entry, why: Reason, calls: seq<Call>) {
    if x.e.errorOrHangUp then calls == [] && why == HangUp
    else if sv.payload == [] then x.e.writable && calls == [] && why == Finished
    else x.e.writable && calls == [Offer(sv, x)] && (why == Finished || why == SendFailed)
  }

  /** The worker has not come to the entry yet. */
  predicate Ahead(wk: Worker, x: Entry) {
    InBatch(wk.pc) && (wk.pos < x.j || (wk.pos == x.j && wk.pc.Dispatching?))
  }

  /** The worker is at the entry. */
  predicate AtEntry(wk: Worker, x: Entry) {
    InBatch(wk.pc) && wk.pos == x.j && !wk.pc.Dispatching?
  }

  ghost predicate Tracks(sv: Server, s: State, x: Entry, calls: seq<Call>)
    requires Shaped(s) && x.w < |s.workers| && x.c < |s.conns|
  {
    var wk, k := s.workers[x.w], s.conns[x.c];
    && (InBatch(wk.pc) || wk.pc.Waiting?) && wk.epollFd == x.epollFd
    && x.j < |wk.batch| == |s.reported[x.w]| && wk.batch[x.j] == x.e && x.e.fd != sv.listenFd
    && s.reported[x.w][x.j] == Peer(x.c, x.w)
    && DistinctEvents(wk.batch)
    && (if Ahead(wk, x) then calls == [] && |k.accepted| == x.offset
        else if AtEntry(wk, x) then AtWorkOn(sv, wk, x, calls) && (wk.pc.Sending? ==> |k.accepted| == x.offset)
        else Handled(sv, x, calls, k.phase) && (k.phase.Open? ==> Holds(wk.table, x.e.fd)))
  }

  predicate AtWorkOn(sv: Server, wk: Worker, x: Entry, calls: seq<Call>) {
    match wk.pc
    case Sending(_) => calls == [] && x.e.writable && !x.e.errorOrHangUp
    case Deleting(_, why) => BeforeRemoval(sv, x, why, calls)
    case Closing(_, why) =>
      calls != [] && calls[|calls| - 1] == EpollDelete(x.epollFd, x.e.fd)
          && BeforeRemoval(sv, x, why, calls[..|calls| - 1])
    case _ => false
  }

  // ---------------------------------------------------------------------------
  // Steps that do not concern the connection
  // ---------------------------------------------------------------------------

  /** The target of a call is a descriptor of the caller. */
  lemma TargetIsOwn(sv: Server, s: State, w: nat, r: Reply)
    requires CanInvoke(sv, s, w, r)
    requires ConnectedTo(s, Target(Request(sv.Cfg(), s.workers[w])))
    requires var call := Request(sv.Cfg(), s.workers[w]); !call.EpollCreate? && !call.EpollWait? && !call.Accept?
    ensures var wk := s.workers[w];
            var fd := Target(Request(sv.Cfg(), wk));
            && s.open[fd].owner == w && s.conns[s.open[fd].conn].phase == Phase.Open(fd)
            && ((OnSlot(wk.pc) && fd == wk.table[wk.pc.index].fd) || (InFlight(wk.pc) && fd == wk.pc.fd)
                || wk.pc.Cleaning?)
  {
    hide Holding; hide Interested; hide Batched; hide Streaming;
    var wk := s.workers[w];
    if OnSlot(wk.pc) || wk.pc.Cleaning? {
      SlotIsOpen(sv, s, w, wk.pc.index);
    } else if InFlight(wk.pc) {
      InFlightIsOpen(sv, s, w);
    } else if !wk.pc.Starting? {
      EpollIsOpen(sv, s, w);
    }
  }

  /** An open connection stays open, and is handed nothing, in a step with no call on it. */
  lemma Untouched(sv: Server, s: State, a: Action, c: nat)
    requires Inv(sv, s) && Enabled(sv, s, a) && c < |s.conns| && CallOn(sv, s, a, c) == []
    ensures s.conns[c].phase.Open? ==> Apply(sv, s, a).conns[c].phase == s.conns[c].phase
    ensures Apply(sv, s, a).conns[c].accepted == s.conns[c].accepted
  {
    hide WorkerOk; hide KernelEffect;
    AcceptedStays(sv, s, a, c);
    if a.Invoke? && s.conns[c].phase.Open? {
      EffectOnPhase(sv, s, a.w, Request(sv.Cfg(), s.workers[a.w]), a.r, c);
    }
  }

  lemma EffectOnPhase(sv: Server, s: State, w: nat, call: Call, r: Reply, c: nat)
    requires Shaped(s) && w < |s.workers| && Possible(s, w, call, r) && c < |s.conns|
    requires KernelOk(sv, s) && s.conns[c].phase.Open? && !NamesConnection(s, call, c)
    ensures KernelEffect(sv, s, w, call, r).conns[c].phase == s.conns[c].phase
  {
  }

  /** Nobody else calls anything on a connection of worker `w`. */
  lemma OthersDoNotCall(sv: Server, s: State, a: Action, w: nat, c: nat)
    requires Inv(sv, s) && Enabled(sv, s, a) && c < |s.conns| && !(a.Invoke? && a.w == w)
    requires s.conns[c].phase.Open? ==> s.conns[c].phase.fd in s.open && s.open[s.conns[c].phase.fd] == Peer(c, w)
    ensures CallOn(sv, s, a, c) == []
  {
    hide WorkerOk; hide KernelOk;
    if a.Invoke? && NamesConnection(s, Request(sv.Cfg(), s.workers[a.w]), c) {
      TargetIsOwn(sv, s, a.w, a.r);
    }
  }

  /** While it is open, the connection is in a slot of the worker under the reported number. */
  lemma StillOwn(sv: Server, s: State, x: Entry, calls: seq<Call>)
    requires Inv(sv, s) && x.w < |s.workers| && x.c < |s.conns| && Tracks(sv, s, x, calls)
    ensures s.conns[x.c].phase.Open? ==>
              && s.conns[x.c].phase == Phase.Open(x.e.fd)
              && x.e.fd in s.open && s.open[x.e.fd] == Peer(x.c, x.w) && Holds(s.workers[x.w].table, x.e.fd)
    ensures Ahead(s.workers[x.w], x) || AtEntry(s.workers[x.w], x) ==> s.conns[x.c].phase.Open?
  {
    hide Interested; hide Streaming; hide AtWorkOn;
    var wk := s.workers[x.w];
    assert Good(sv, s, x.w);
    if Ahead(wk, x) || AtEntry(wk, x) {
      assert Current(sv, wk, Mine(s.open, x.w), s.reported[x.w], x.j);
      assert DescriptorOk(sv, s, x.e.fd);
    } else if s.conns[x.c].phase.Open? {
      var i :| 0 <= i < |wk.table| && wk.table[i].fd == x.e.fd;
      SlotIsOpen(sv, s, x.w, i);
      assert PhaseOk(s, x.c);
    }
  }

  lemma OthersStep(sv: Server, s: State, a: Action, x: Entry, calls: seq<Call>)
    requires Inv(sv, s) && Enabled(sv, s, a) && x.w < |s.workers| && x.c < |s.conns| && Tracks(sv, s, x, calls)
    requires !((a.Invoke? || a.Branch?) && a.w == x.w)
    ensures CallOn(sv, s, a, x.c) == [] && Tracks(sv, Apply(sv, s, a), x, calls)
  {
    hide WorkerOk; hide KernelOk; hide KernelEffect; hide AtWorkOn; hide Handled;
    StillOwn(sv, s, x, calls);
    OthersDoNotCall(sv, s, a, x.w, x.c);
    Untouched(sv, s, a, x.c);
    OnlyWaitReports(sv, s, a, x.w);
    if s.conns[x.c].phase.Closed? { ClosedStays(sv, s, a, x.c); }
    if a.Invoke? { SameConnections(sv, s, a.w, a.r); }
    HandledPhase(sv, x, calls, s.conns[x.c].phase);
  }

  lemma HandledPhase(sv: Server, x: Entry, calls: seq<Call>, phase: Phase)
    ensures Handled(sv, x, calls, phase) ==> phase.Open? || phase.Closed?
  {
  }

  // ---------------------------------------------------------------------------
  // Steps of the worker
  // ---------------------------------------------------------------------------

  lemma BranchStep(sv: Server, s: State, x: Entry, calls: seq<Call>)
    requires Inv(sv, s) && Enabled(sv, s, Branch(x.w)) && x.w < |s.workers| && x.c < |s.conns|
        && Tracks(sv, s, x, calls)
    ensures Tracks(sv, Apply(sv, s, Branch(x.w)), x, calls)
  {
    hide KernelOk; hide Holding; hide Interested; hide Handled;
    var wk := s.workers[x.w];
    StillOwn(sv, s, x, calls);
    assert Good(sv, s, x.w);
    if Ahead(wk, x) && wk.pos == x.j {
      HeadStep(sv, s, x, calls);
    }
  }

  /** At the head of the loop, with this entry. */
  lemma HeadStep(sv: Server, s: State, x: Entry, calls: seq<Call>)
    requires Inv(sv, s) && Enabled(sv, s, Branch(x.w)) && x.w < |s.workers| && x.c < |s.conns|
        && Tracks(sv, s, x, calls)
    requires Ahead(s.workers[x.w], x) && s.workers[x.w].pos == x.j
    ensures Tracks(sv, Apply(sv, s, Branch(x.w)), x, calls)
  {
    hide KernelOk; hide Holding; hide Interested;
    var wk := s.workers[x.w];
    StillOwn(sv, s, x, calls);
    assert Good(sv, s, x.w);
    var i := Find(wk.table, x.e.fd);
    assert i < |wk.table|;
    assert Marked(sv, wk, i);
  }

  lemma OtherEntryStep(sv: Server, s: State, r: Reply, x: Entry, calls: seq<Call>)
    requires CanInvoke(sv, s, x.w, r) && x.w < |s.workers| && x.c < |s.conns| && Tracks(sv, s, x, calls)
    requires !s.workers[x.w].pc.Waiting? && !AtEntry(s.workers[x.w], x)
    ensures CallOn(sv, s, Invoke(x.w, r), x.c) == [] && Tracks(sv, Apply(sv, s, Invoke(x.w, r)), x, calls)
  {
    hide WorkerOk; hide KernelOk; hide KernelEffect; hide AtWorkOn; hide Handled;
    var a := Invoke(x.w, r);
    StillOwn(sv, s, x, calls);
    OtherTarget(sv, s, r, x, calls);
    Untouched(sv, s, a, x.c);
    OnlyWaitReports(sv, s, a, x.w);
    if s.conns[x.c].phase.Closed? { ClosedStays(sv, s, a, x.c); }
    HandledPhase(sv, x, calls, s.conns[x.c].phase);
  }

  /** The worker is at another entry: its call is about another descriptor, and the slot of the
      connection stays where it is. */
  lemma OtherTarget(sv: Server, s: State, r: Reply, x: Entry, calls: seq<Call>)
    requires CanInvoke(sv, s, x.w, r) && x.w < |s.workers| && x.c < |s.conns| && Tracks(sv, s, x, calls)
    requires !s.workers[x.w].pc.Waiting? && !AtEntry(s.workers[x.w], x)
    ensures CallOn(sv, s, Invoke(x.w, r), x.c) == []
    ensures Holds(s.workers[x.w].table, x.e.fd) ==> Holds(OnReply(sv.Cfg(), s.workers[x.w], r).table, x.e.fd)
  {
    hide KernelOk; hide Interested; hide Streaming; hide AtWorkOn; hide Handled;
    var wk := s.workers[x.w];
    assert Good(sv, s, x.w);
    StillOwn(sv, s, x, calls);
    assert OnSlot(wk.pc) ==> wk.table[wk.pc.index].fd != x.e.fd;
    if NamesConnection(s, Request(sv.Cfg(), wk), x.c) {
      TargetIsOwn(sv, s, x.w, r);
    }
    if Holds(wk.table, x.e.fd) { SlotStays(sv.Cfg(), wk, r, x.e.fd); }
  }

  lemma SlotStays(cfg: Config, wk: Worker, r: Reply, fd: Fd)
    requires wk.WellFormed() && wk.AtCall() && Holds(wk.table, fd)
    requires OnSlot(wk.pc) ==> wk.table[wk.pc.index].fd != fd
    ensures Holds(OnReply(cfg, wk, r).table, fd)
  {
    var i :| 0 <= i < |wk.table| && wk.table[i].fd == fd;
    var table := OnReply(cfg, wk, r).table;
    assert table[if wk.pc.Closing? && i == |wk.table| - 1 then wk.pc.index else i].fd == fd;
  }

  /** At the entry, the calls are about its connection. */
  lemma EntryTarget(sv: Server, s: State, r: Reply, x: Entry, calls: seq<Call>)
    requires CanInvoke(sv, s, x.w, r) && x.w < |s.workers| && x.c < |s.conns| && Tracks(sv, s, x, calls)
    requires AtEntry(s.workers[x.w], x)
    ensures var wk := s.workers[x.w];
            && OnSlot(wk.pc) && wk.table[wk.pc.index].fd == x.e.fd
            && CallOn(sv, s, Invoke(x.w, r), x.c) == [Request(sv.Cfg(), wk)]
  {
    hide KernelOk; hide Interested; hide Streaming; hide Holding;
    StillOwn(sv, s, x, calls);
    assert Good(sv, s, x.w);
  }

  lemma SendEntry(sv: Server, s: State, r: Reply, x: Entry, calls: seq<Call>)
    requires CanInvoke(sv, s, x.w, r) && x.w < |s.workers| && x.c < |s.conns| && Tracks(sv, s, x, calls)
    requires AtEntry(s.workers[x.w], x) && s.workers[x.w].pc.Sending?
    ensures Tracks(sv, Apply(sv, s, Invoke(x.w, r)), x, calls + CallOn(sv, s, Invoke(x.w, r), x.c))
  {
    hide KernelOk; hide WorkerOk; hide KernelEffect;
    var wk, a := s.workers[x.w], Invoke(x.w, r);
    EntryTarget(sv, s, r, x, calls);
    StillOwn(sv, s, x, calls);
    OnlyWaitReports(sv, s, a, x.w);
    PendingSend(sv, s, x.w, x.c);
    SendKeepsPhases(sv, s, x.w, r, x.c);
    assert calls + [Offer(sv, x)] == [Offer(sv, x)];
    if Holds(wk.table, x.e.fd) { SentTable(sv.Cfg(), wk, r, x.e.fd); }
  }

  lemma SendKeepsPhases(sv: Server, s: State, w: nat, r: Reply, c: nat)
    requires Shaped(s) && Enabled(sv, s, Invoke(w, r)) && s.workers[w].pc.Sending? && c < |s.conns|
    ensures Apply(sv, s, Invoke(w, r)).conns[c].phase == s.conns[c].phase
  {
  }

  lemma SentTable(cfg: Config, wk: Worker, r: Reply, fd: Fd)
    requires wk.WellFormed() && wk.pc.Sending? && Holds(wk.table, fd)
    ensures Holds(OnReply(cfg, wk, r).table, fd)
  {
    var i :| 0 <= i < |wk.table| && wk.table[i].fd == fd;
    assert OnReply(cfg, wk, r).table[i].fd == fd;
  }

  lemma DeleteEntry(sv: Server, s: State, r: Reply, x: Entry, calls: seq<Call>)
    requires CanInvoke(sv, s, x.w, r) && x.w < |s.workers| && x.c < |s.conns| && Tracks(sv, s, x, calls)
    requires AtEntry(s.workers[x.w], x) && s.workers[x.w].pc.Deleting?
    ensures Tracks(sv, Apply(sv, s, Invoke(x.w, r)), x, calls + CallOn(sv, s, Invoke(x.w, r), x.c))
  {
    hide KernelOk; hide WorkerOk; hide KernelEffect; hide BeforeRemoval;
    EntryTarget(sv, s, r, x, calls);
    OnlyWaitReports(sv, s, Invoke(x.w, r), x.w);
    var call := EpollDelete(x.epollFd, x.e.fd);
    assert (calls + [call])[..|calls|] == calls;
  }

  lemma CloseEntry(sv: Server, s: State, r: Reply, x: Entry, calls: seq<Call>)
    requires CanInvoke(sv, s, x.w, r) && x.w < |s.workers| && x.c < |s.conns| && Tracks(sv, s, x, calls)
    requires AtEntry(s.workers[x.w], x) && s.workers[x.w].pc.Closing?
    ensures Tracks(sv, Apply(sv, s, Invoke(x.w, r)), x, calls + CallOn(sv, s, Invoke(x.w, r), x.c))
  {
    hide KernelOk; hide WorkerOk;
    EntryTarget(sv, s, r, x, calls);
    StillOwn(sv, s, x, calls);
    var first := calls[..|calls| - 1];
    assert calls + [Close(x.e.fd)] == first + Removal(x);
    assert first == [] ==> first + Removal(x) == Removal(x);
  }

  lemma EntryStep(sv: Server, s: State, r: Reply, x: Entry, calls: seq<Call>)
    requires CanInvoke(sv, s, x.w, r) && x.w < |s.workers| && x.c < |s.conns| && Tracks(sv, s, x, calls)
    requires AtEntry(s.workers[x.w], x)
    ensures Tracks(sv, Apply(sv, s, Invoke(x.w, r)), x, calls + CallOn(sv, s, Invoke(x.w, r), x.c))
  {
    hide KernelOk; hide WorkerOk; hide KernelEffect; hide Tracks;
    EntryTarget(sv, s, r, x, calls);
    match s.workers[x.w].pc {
      case Sending(_) => SendEntry(sv, s, r, x, calls);
      case Deleting(_, _) => DeleteEntry(sv, s, r, x, calls);
      case Closing(_, _) => CloseEntry(sv, s, r, x, calls);
    }
  }

  // ---------------------------------------------------------------------------
  // Runs
  // ---------------------------------------------------------------------------

  lemma StepTracks(sv: Server, s: State, a: Action, x: Entry, calls: seq<Call>)
    requires Inv(sv, s) && Enabled(sv, s, a) && x.w < |s.workers| && x.c < |s.conns| && Tracks(sv, s, x, calls)
    requires !(a.Invoke? && a.w == x.w && s.workers[x.w].pc.Waiting?)
    ensures Tracks(sv, Apply(sv, s, a), x, calls + CallOn(sv, s, a, x.c))
  {
    hide KernelOk; hide Good; hide KernelEffect; hide Tracks;
    assert calls + [] == calls;
    if !((a.Invoke? || a.Branch?) && a.w == x.w) {
      OthersStep(sv, s, a, x, calls);
    } else if a.Branch? {
      BranchStep(sv, s, x, calls);
    } else if AtEntry(s.workers[x.w], x) {
      EntryStep(sv, s, a.r, x, calls);
    } else {
      OtherEntryStep(sv, s, a.r, x, calls);
    }
  }

  lemma {:induction false} RunTracks(sv: Server, s: State, acts: seq<Action>, x: Entry, calls: seq<Call>)
    requires Inv(sv, s) && Run(sv, s, acts) && x.w < |s.workers| && x.c < |s.conns| && Tracks(sv, s, x, calls)
    requires NoWait(sv, s, acts, x.w)
    ensures Tracks(sv, After(sv, s, acts), x, calls + CallsOn(sv, s, acts, x.c))
    decreases acts
  {
    hide Tracks; hide CallOn; hide KernelOk; hide Good; hide StreamOk;
    if acts == [] {
      assert calls + [] == calls;
    } else {
      var s', now := Apply(sv, s, acts[0]), CallOn(sv, s, acts[0], x.c);
      StepTracks(sv, s, acts[0], x, calls);
      StepKeeps(sv, s, acts[0]);
      RunTracks(sv, s', acts[1..], x, calls + now);
      assert calls + (now + CallsOn(sv, s', acts[1..], x.c)) == calls + now + CallsOn(sv, s', acts[1..], x.c);
    }
  }

  /** The entry `j` of a batch that `epoll_wait` has just returned to worker `w`. */
  ghost function Reported(sv: Server, s: State, w: nat, r: Reply, j: nat): Entry
    requires Shaped(s) && w < |s.workers| && Enabled(sv, s, Invoke(w, r)) && s.workers[w].pc.Waiting? && r.ret != -1
    requires j < |r.events| && ConnectedTo(s, r.events[j].fd)
  {
    var c := s.open[r.events[j].fd].conn;
    Entry(w, j, r.events[j], c, |s.conns[c].accepted|, s.workers[w].epollFd)
  }

  lemma BatchIsTracked(sv: Server, s: State, w: nat, r: Reply, j: nat)
    requires Inv(sv, s) && w < |s.workers| && Enabled(sv, s, Invoke(w, r)) && s.workers[w].pc.Waiting? && r.ret != -1
    requires j < |r.events| && r.events[j].fd != sv.listenFd
    ensures ConnectedTo(s, r.events[j].fd)
    ensures Tracks(sv, Apply(sv, s, Invoke(w, r)), Reported(sv, s, w, r, j), [])
  {
    hide Streaming;
    assert Good(sv, s, w);
    assert Watched(s, w, r.events[j].fd);
    assert InSlot(s.workers[w], r.events[j].fd);
    var i :| LiveFrom(s.workers[w]) <= i < |s.workers[w].table| && s.workers[w].table[i].fd == r.events[j].fd;
    SlotIsOpen(sv, s, w, i);
  }

  /** For every interleaving of any number of workers: take a batch that `epoll_wait` returns to
      worker `w`, and any run up to where `w` waits again.  Each connection that was reported
      with an error or hang-up is deregistered and closed for that reason, with no other call on
      it; each that was reported writable only is sent to once, the rest of the payload being
      offered, and is closed just when that finished the payload or failed; on each with neither
      flag there is no call by anybody. */
  lemma {:induction false} BatchIsHandled(sv: Server, s0: State, before: seq<Action>, s: State, w: nat, r: Reply,
                                          after: seq<Action>, j: nat)
    requires Reaches(sv, s0, before, s) && w < |s.workers|
    requires Enabled(sv, s, Invoke(w, r)) && s.workers[w].pc.Waiting? && r.ret != -1
    requires var s1 := Apply(sv, s, Invoke(w, r));
             Run(sv, s1, after) && NoWait(sv, s1, after, w) && After(sv, s1, after).workers[w].pc.Waiting?
    requires j < |r.events| && r.events[j].fd != sv.listenFd
    ensures ConnectedTo(s, r.events[j].fd)
    ensures var x := Reported(sv, s, w, r, j);
            var s1 := Apply(sv, s, Invoke(w, r));
            Handled(sv, x, CallsOn(sv, s1, after, x.c), After(sv, s1, after).conns[x.c].phase)
  {
    hide KernelOk; hide Good; hide StreamOk; hide KernelEffect; hide Handled; hide AtWorkOn;
    Reached(sv, s0, before, s);
    BatchIsTracked(sv, s, w, r, j);
    var x, s1 := Reported(sv, s, w, r, j), Apply(sv, s, Invoke(w, r));
    StepKeeps(sv, s, Invoke(w, r));
    RunTracks(sv, s1, after, x, []);
    assert [] + CallsOn(sv, s1, after, x.c) == CallsOn(sv, s1, after, x.c);
  }

  // ---------------------------------------------------------------------------
  // When the loops end
  // ---------------------------------------------------------------------------

  /** The main loop ends only with a wait that fails and was not interrupted; an interrupted wait
      or accept is called again, with nothing changed. */
  lemma MainLoopEnds(cfg: Config, w: Worker, r: Reply)
    requires w.WellFormed() && w.AtCall() && Serving(w.pc)
    ensures !Serving(OnReply(cfg, w, r).pc) <==> w.pc.Waiting? && r.ret == -1 && r.errno != EINTR
    ensures (w.pc.Waiting? || w.pc.Accepting?) && r.ret == -1 && r.errno == EINTR ==> OnReply(cfg, w, r) == w
  {
  }

  /** The accept loop ends only with an accept that fails and was not interrupted, or with a full
      table; a connection that cannot be set up does not end it. */
  lemma AcceptLoopEnds(cfg: Config, w: Worker, r: Reply)
    requires w.WellFormed() && (w.pc.Accepting? || InFlight(w.pc))
    ensures var w' := OnReply(cfg, w, r);
            && (w'.pc.Dispatching? <==>
                  (w.pc.Accepting? && r.ret == -1 && r.errno != EINTR) || |w'.table| == MAX_CLIENTS_PER_WORKER)
            && (!w'.pc.Dispatching? ==> w'.pc.Accepting? || InFlight(w'.pc))
  {
  }

  lemma OneCall(cfg: Config, w: Worker, r: Reply, rest: seq<Reply>)
    requires w.WellFormed() && w.AtCall()
    ensures Exec(cfg, w, [r] + rest) == Continue(cfg, [Request(cfg, w)], OnReply(cfg, w, r), rest)
  {
    assert ([r] + rest)[1..] == rest;
  }

  lemma Nested(cfg: Config, a: seq<Call>, b: seq<Call>, w: Worker, before: seq<Reply>, w': Worker, after: seq<Reply>)
    requires w.WellFormed() && w'.WellFormed()
    requires Exec(cfg, w, before) == Continue(cfg, b, w', after)
    ensures Continue(cfg, a, w, before) == Continue(cfg, a + b, w', after)
  {
    var calls := Exec(cfg, w', after).calls;
    assert a + (b + calls) == a + b + calls;
  }

  lemma ThreeCalls(cfg: Config, w: Worker, w1: Worker, w2: Worker, w3: Worker, r: Reply, r1: Reply, r2: Reply,
                   rest: seq<Reply>)
    requires w.WellFormed() && w.AtCall() && w1 == OnReply(cfg, w, r) && w1.AtCall()
    requires w2 == OnReply(cfg, w1, r1) && w2.AtCall() && w3 == OnReply(cfg, w2, r2)
    ensures Exec(cfg, w, [r, r1, r2] + rest)
            == Continue(cfg, [Request(cfg, w), Request(cfg, w1), Request(cfg, w2)], w3, rest)
  {
    hide Exec; hide OnReply; hide Request;
    assert [r, r1, r2] + rest == [r] + ([r1] + ([r2] + rest));
    OneCall(cfg, w, r, [r1] + ([r2] + rest));
    OneCall(cfg, w1, r1, [r2] + rest);
    OneCall(cfg, w2, r2, rest);
    Nested(cfg, [Request(cfg, w1)], [Request(cfg, w2)], w2, [r2] + rest, w3, rest);
    Nested(cfg, [Request(cfg, w)], [Request(cfg, w1), Request(cfg, w2)], w1, [r1] + ([r2] + rest), w3, rest);
  }

  /** What becomes of an accepted descriptor: it is made non-blocking, then registered, then put
      at the end of the table with nothing sent; if either call fails it is closed and nothing
      else changes.  Then the accept loop goes on. */
  lemma {:induction false} AcceptedIsAdmitted(cfg: Config, w: Worker, accepted: Reply, configured: Reply,
                                              registered: Reply, closed: Reply, rest: seq<Reply>)
    requires w.WellFormed() && w.pc.Accepting? && accepted.ret != -1
    ensures var fd := accepted.ret;
            var first := [Accept(cfg.listenFd), SetNonblocking(fd)];
            && (configured.ret == -1 ==>
                  Exec(cfg, w, [accepted, configured, closed] + rest)
                  == Continue(cfg, first + [Close(fd)], AcceptHead(w), rest))
            && (configured.ret != -1 && registered.ret == -1 ==>
                  Exec(cfg, w, [accepted, configured, registered, closed] + rest)
                  == Continue(cfg, first + [EpollAdd(w.epollFd, fd), Close(fd)], AcceptHead(w), rest))
            && (configured.ret != -1 && registered.ret != -1 ==>
                  Exec(cfg, w, [accepted, configured, registered] + rest)
                  == Continue(cfg, first + [EpollAdd(w.epollFd, fd)],
                              AcceptHead(w.(table := w.table + [Slot(fd, 0)])), rest))
  {
    hide Exec;
    var fd := accepted.ret;
    var w1, w2, w3 := w.(pc := Configuring(fd)), w.(pc := Registering(fd)), w.(pc := Dropping(fd));
    var w4 := OnReply(cfg, w2, registered);
    if configured.ret == -1 {
      ThreeCalls(cfg, w, w1, w3, AcceptHead(w), accepted, configured, closed, rest);
    } else if registered.ret == -1 {
      ThreeCalls(cfg, w, w1, w2, w3, accepted, configured, registered, [closed] + rest);
      OneCall(cfg, w3, closed, rest);
      assert [accepted, configured, registered, closed] + rest
          == [accepted, configured, registered] + ([closed] + rest);
      Nested(cfg, [Accept(cfg.listenFd), SetNonblocking(fd), EpollAdd(w.epollFd, fd)], [Close(fd)],
             w3, [closed] + rest, AcceptHead(w), rest);
    } else {
      ThreeCalls(cfg, w, w1, w2, w4, accepted, configured, registered, rest);
    }
  }
}
