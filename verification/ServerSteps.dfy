/** The invariant is kept by every action, hence holds in every reachable state. */
module ServerSteps {
  import opened ClientTable
  import opened WorkerLoop
  import opened FileServer
  import opened ServerInvariant

  /** The descriptor of slot `i` names an open connection that worker `w` obtained. */
  lemma SlotIsOpen(sv: Server, s: State, w: nat, i: nat)
    requires Inv(sv, s) && w < |s.workers|
    requires LiveFrom(s.workers[w]) <= i < |s.workers[w].table|
    ensures var fd := s.workers[w].table[i].fd;
            ConnectedTo(s, fd) && s.open[fd].owner == w && s.conns[s.open[fd].conn].phase == Open(fd)
  {
    assert Good(sv, s, w);
    var fd := s.workers[w].table[i].fd;
    assert HoldsClient(s.workers[w], fd);
    assert fd in Mine(s.open, w);
    assert DescriptorOk(sv, s, fd);
  }

  lemma InFlightIsOpen(sv: Server, s: State, w: nat)
    requires Inv(sv, s) && w < |s.workers| && InFlight(s.workers[w].pc)
    ensures var fd := s.workers[w].pc.fd;
            ConnectedTo(s, fd) && s.open[fd].owner == w && s.conns[s.open[fd].conn].phase == Open(fd)
  {
    assert Good(sv, s, w);
    var fd := s.workers[w].pc.fd;
    assert HoldsClient(s.workers[w], fd);
    assert fd in Mine(s.open, w);
    assert DescriptorOk(sv, s, fd);
  }

  lemma EpollIsOpen(sv: Server, s: State, w: nat)
    requires Inv(sv, s) && w < |s.workers| && !s.workers[w].pc.Starting? && !s.workers[w].pc.Exited?
    ensures var fd := s.workers[w].epollFd; fd in s.open && s.open[fd] == Epoll(w)
  {
    assert Good(sv, s, w);
    assert HoldsEpoll(s.workers[w], s.workers[w].epollFd);
  }

  /** A step of worker `w` that leaves alone what another worker sees keeps that worker. */
  lemma OthersKeep(sv: Server, s: State, s': State, v: nat)
    requires Inv(sv, s) && Shaped(s') && |s'.workers| == |s.workers| && |s'.conns| == |s.conns| && v < |s.workers|
    requires s'.workers[v] == s.workers[v] && s'.interest[v] == s.interest[v] && s'.reported[v] == s.reported[v]
    requires Mine(s'.open, v) == Mine(s.open, v)
    requires forall fd :: fd in s.open && s.open[fd].Peer? && s.open[fd].owner == v && s.open[fd].conn < |s.conns|
                          ==> s'.conns[s.open[fd].conn].accepted == s.conns[s.open[fd].conn].accepted
    ensures Good(sv, s', v)
  {
    hide Holding; hide Interested; hide Batched; hide Streaming;
    assert Good(sv, s, v);
    ConnsFrame(sv, s.workers[v], Mine(s.open, v), s.interest[v], s.reported[v], s.conns, s'.conns);
  }

  // ---------------------------------------------------------------------------
  // Clients, the network and local steps
  // ---------------------------------------------------------------------------

  lemma ClientStepKeeps(sv: Server, s: State, a: Action)
    requires Inv(sv, s) && Enabled(sv, s, a) && !a.Branch? && !a.Invoke?
    ensures Inv(sv, Apply(sv, s, a))
  {
    hide Holding; hide Interested; hide Batched; hide Streaming;
    var s' := Apply(sv, s, a);
    forall w | 0 <= w < |s.workers|
      ensures Good(sv, s', w)
    {
      OthersKeep(sv, s, s', w);
    }
    if a.Connect? {
      ConnectKernel(sv, s, a.c);
    } else {
      KernelUnchanged(sv, s, s');
    }
    ClientStream(sv, s, a);
  }

  lemma ConnectKernel(sv: Server, s: State, c: nat)
    requires Inv(sv, s) && Enabled(sv, s, Connect(c))
    ensures KernelOk(sv, Apply(sv, s, Connect(c)))
  {
    hide WorkerOk;
    var s' := Apply(sv, s, Connect(c));
    forall fd | fd in s'.open
      ensures DescriptorOk(sv, s', fd)
    {
      assert DescriptorOk(sv, s, fd);
    }
    forall d | 0 <= d < |s'.conns|
      ensures PhaseOk(s', d)
    {
      assert PhaseOk(s, d);
      assert s'.queue[|s.queue|] == c;
    }
  }

  lemma ClientStream(sv: Server, s: State, a: Action)
    requires Shaped(s) && Enabled(sv, s, a) && !a.Branch? && !a.Invoke?
    requires forall c :: 0 <= c < |s.conns| ==> StreamOk(sv, s.conns[c])
    ensures forall c :: 0 <= c < |s.conns| ==> StreamOk(sv, Apply(sv, s, a).conns[c])
  {
  }

  lemma BranchStepKeeps(sv: Server, s: State, w: nat)
    requires Inv(sv, s) && Enabled(sv, s, Branch(w))
    ensures Inv(sv, Apply(sv, s, Branch(w)))
  {
    hide Holding; hide Interested; hide Batched; hide Streaming;
    var s' := Apply(sv, s, Branch(w));
    assert Good(sv, s, w);
    BranchKeeps(sv, s.workers[w], Mine(s.open, w), s.interest[w], s.reported[w], s.conns);
    forall v | 0 <= v < |s.workers|
      ensures Good(sv, s', v)
    {
      if v != w {
        OthersKeep(sv, s, s', v);
      }
    }
    KernelUnchanged(sv, s, s');
  }

  lemma KernelUnchanged(sv: Server, s: State, s': State)
    requires KernelOk(sv, s) && Shaped(s') && |s'.workers| == |s.workers|
    requires s'.open == s.open && s'.queue == s.queue && |s'.conns| == |s.conns|
    requires forall c :: 0 <= c < |s.conns| ==> s'.conns[c].phase == s.conns[c].phase
    ensures KernelOk(sv, s')
  {
    forall fd | fd in s'.open
      ensures DescriptorOk(sv, s', fd)
    {
      assert DescriptorOk(sv, s, fd);
    }
    forall c | 0 <= c < |s'.conns|
      ensures PhaseOk(s', c)
    {
      assert PhaseOk(s, c);
    }
  }

  // ---------------------------------------------------------------------------
  // System calls
  // ---------------------------------------------------------------------------

  ghost predicate CanInvoke(sv: Server, s: State, w: nat, r: Reply) {
    Inv(sv, s) && Enabled(sv, s, Invoke(w, r))
  }

  /** Everything but the acting worker and the streams. */
  ghost predicate RestOk(sv: Server, s: State, w: nat) {
    && Shaped(s) && w < |s.workers|
    && KernelOk(sv, s)
    && (forall c :: 0 <= c < |s.conns| ==> StreamOk(sv, s.conns[c]))
    && (forall v :: 0 <= v < |s.workers| && v != w ==> Good(sv, s, v))
  }

  lemma CreateStep(sv: Server, s: State, w: nat, r: Reply)
    requires CanInvoke(sv, s, w, r) && s.workers[w].pc.Starting?
    ensures Inv(sv, Apply(sv, s, Invoke(w, r)))
  {
    hide Holding; hide Interested; hide Batched; hide Streaming;
    var s' := Apply(sv, s, Invoke(w, r));
    assert Good(sv, s, w);
    CreateKeeps(sv, s.workers[w], w, Mine(s.open, w), s.interest[w], s.reported[w], s.conns, r);
    assert Mine(s'.open, w) == if r.ret == -1 then Mine(s.open, w) else Mine(s.open, w)[r.ret := Epoll(w)];
    forall v | 0 <= v < |s.workers| && v != w
      ensures Good(sv, s', v)
    {
      assert Mine(s'.open, v) == Mine(s.open, v);
      OthersKeep(sv, s, s', v);
    }
    forall fd | fd in s'.open
      ensures DescriptorOk(sv, s', fd)
    {
      assert fd in s.open ==> DescriptorOk(sv, s, fd);
    }
    forall c | 0 <= c < |s'.conns|
      ensures PhaseOk(s', c)
    {
      assert PhaseOk(s, c);
    }
  }

  ghost predicate AtRegistration(pc: Pc) {
    pc.Subscribing? || pc.Waiting? || pc.Configuring? || pc.Registering? || pc.Deleting?
  }

  /** Calls that only touch the interest set or the batch of the worker. */
  lemma RegistrationLocal(sv: Server, s: State, w: nat, r: Reply)
    requires CanInvoke(sv, s, w, r) && AtRegistration(s.workers[w].pc)
    ensures Good(sv, Apply(sv, s, Invoke(w, r)), w)
  {
    hide Holding; hide Batched; hide Streaming;
    var s' := Apply(sv, s, Invoke(w, r));
    var wk := s.workers[w];
    var mine := Mine(s.open, w);
    assert Good(sv, s, w);
    match wk.pc {
      case Subscribing => SubscribeKeeps(sv, wk, mine, s.interest[w], s.reported[w], s.conns, r);
      case Waiting => WaitKeeps(sv, wk, mine, s.interest[w], s.reported[w], s'.reported[w], s.conns, r);
      case Configuring(_) => ConfigureKeeps(sv, wk, mine, s.interest[w], s.reported[w], s.conns, r);
      case Registering(_) =>
        RegisterKeeps(sv, wk, mine, s.interest[w], s.reported[w], s.conns, r);
        InFlightIsOpen(sv, s, w);
      case Deleting(_, _) => DeleteKeeps(sv, wk, mine, s.interest[w], s.reported[w], s.conns, r);
    }
  }

  lemma RegistrationStep(sv: Server, s: State, w: nat, r: Reply)
    requires CanInvoke(sv, s, w, r) && AtRegistration(s.workers[w].pc)
    ensures Inv(sv, Apply(sv, s, Invoke(w, r)))
  {
    hide Holding; hide Interested; hide Batched; hide Streaming;
    var s' := Apply(sv, s, Invoke(w, r));
    RegistrationLocal(sv, s, w, r);
    forall v | 0 <= v < |s.workers| && v != w
      ensures Good(sv, s', v)
    {
      OthersKeep(sv, s, s', v);
    }
    KernelUnchanged(sv, s, s');
  }

  lemma AcceptStep(sv: Server, s: State, w: nat, r: Reply)
    requires CanInvoke(sv, s, w, r) && s.workers[w].pc.Accepting?
    ensures Inv(sv, Apply(sv, s, Invoke(w, r)))
  {
    hide Holding; hide Interested; hide Batched; hide Streaming;
    var s' := Apply(sv, s, Invoke(w, r));
    assert Good(sv, s, w);
    var c := if r.ret == -1 then 0 else s.queue[0];
    AcceptKeeps(sv, s.workers[w], w, Mine(s.open, w), s.interest[w], s.reported[w], s'.conns, r, c) by {
      assert r.ret != -1 ==> StreamOk(sv, s.conns[c]);
      ConnsFrame(sv, s.workers[w], Mine(s.open, w), s.interest[w], s.reported[w], s.conns, s'.conns);
    }
    assert Mine(s'.open, w) == if r.ret == -1 then Mine(s.open, w) else Mine(s.open, w)[r.ret := Peer(c, w)];
    forall v | 0 <= v < |s.workers| && v != w
      ensures Good(sv, s', v)
    {
      assert Mine(s'.open, v) == Mine(s.open, v);
      OthersKeep(sv, s, s', v);
    }
    if r.ret != -1 {
      AcceptKernel(sv, s, s', w, r.ret);
    } else {
      KernelUnchanged(sv, s, s');
    }
  }

  lemma AcceptKernel(sv: Server, s: State, s': State, w: nat, fd: Fd)
    requires KernelOk(sv, s) && Shaped(s) && w < |s.workers| && s.queue != [] && fd !in s.open && s.queue[0] < |s.conns|
    requires s'.open == s.open[fd := Peer(s.queue[0], w)] && s'.queue == s.queue[1..] && |s'.workers| == |s.workers|
    requires s'.conns == s.conns[s.queue[0] := s.conns[s.queue[0]].(phase := Phase.Open(fd))]
    ensures KernelOk(sv, s')
  {
    var c := s.queue[0];
    forall g | g in s'.open
      ensures DescriptorOk(sv, s', g)
    {
      assert g in s.open ==> DescriptorOk(sv, s, g);
    }
    forall d | 0 <= d < |s'.conns|
      ensures PhaseOk(s', d)
    {
      assert PhaseOk(s, d);
      if d != c && s.conns[d].phase == Queued {
        var i :| 0 <= i < |s.queue| && s.queue[i] == d;
        assert s'.queue[i - 1] == d;
      }
    }
  }

  lemma SendLocal(sv: Server, s: State, w: nat, r: Reply)
    requires CanInvoke(sv, s, w, r) && s.workers[w].pc.Sending?
    ensures Good(sv, Apply(sv, s, Invoke(w, r)), w)
  {
    hide Holding; hide Interested; hide Batched;
    var s' := Apply(sv, s, Invoke(w, r));
    var wk := s.workers[w];
    var mine := Mine(s.open, w);
    assert Good(sv, s, w);
    assert SlotTrue(sv, mine, s.conns, wk.table[wk.pc.index]);
    forall f, g | f in mine && g in mine && f != g && mine[f].Peer? && mine[g].Peer?
      ensures mine[f].conn != mine[g].conn
    {
      assert DescriptorOk(sv, s, f) && DescriptorOk(sv, s, g);
    }
    SendKeeps(sv, wk, mine, s.interest[w], s.reported[w], s.conns, s'.conns, r);
  }

  lemma SendStep(sv: Server, s: State, w: nat, r: Reply)
    requires CanInvoke(sv, s, w, r) && s.workers[w].pc.Sending?
    ensures Inv(sv, Apply(sv, s, Invoke(w, r)))
  {
    hide Holding; hide Interested; hide Batched; hide Streaming;
    var s' := Apply(sv, s, Invoke(w, r));
    var slot := s.workers[w].table[s.workers[w].pc.index];
    SendLocal(sv, s, w, r);
    SlotIsOpen(sv, s, w, s.workers[w].pc.index);
    forall v | 0 <= v < |s.workers| && v != w
      ensures Good(sv, s', v)
    {
      OtherPeer(sv, s, v, slot.fd);
      OthersKeep(sv, s, s', v);
    }
    KernelUnchanged(sv, s, s');
    SendStream(sv, s, w, r);
  }

  lemma SendStream(sv: Server, s: State, w: nat, r: Reply)
    requires CanInvoke(sv, s, w, r) && s.workers[w].pc.Sending?
    ensures forall c :: 0 <= c < |s.conns| ==> StreamOk(sv, Apply(sv, s, Invoke(w, r)).conns[c])
  {
    var slot := s.workers[w].table[s.workers[w].pc.index];
    SlotIsOpen(sv, s, w, s.workers[w].pc.index);
    assert Good(sv, s, w) && SlotTrue(sv, Mine(s.open, w), s.conns, slot);
    if r.ret > 0 {
      PushedStream(sv, s.conns[s.open[slot.fd].conn], slot.sent, r.ret);
    }
  }

  /** No descriptor of worker `v` is connected to the peer of somebody else's descriptor. */
  lemma OtherPeer(sv: Server, s: State, v: nat, fd: Fd)
    requires KernelOk(sv, s) && fd in s.open && s.open[fd].Peer? && s.open[fd].owner != v
    ensures forall g :: g in s.open && s.open[g].Peer? && s.open[g].owner == v ==> s.open[g].conn != s.open[fd].conn
  {
  }

  lemma PushedStream(sv: Server, k: Connection, offset: nat, n: nat)
    requires StreamOk(sv, k) && k.phase.Open? && !k.reset
    requires offset + n <= |sv.payload| && k.accepted == sv.payload[..offset]
    ensures StreamOk(sv, Push(k, sv.payload[offset..offset + n]))
  {
  }

  // ---------------------------------------------------------------------------
  // close
  // ---------------------------------------------------------------------------

  /** Closing a descriptor of worker `w` concerns no other worker. */
  lemma CloseRest(sv: Server, s: State, s': State, w: nat, fd: Fd, why: Reason)
    requires Inv(sv, s) && w < |s.workers| && fd in s.open && Owns(s.open[fd], w)
    requires Shaped(s') && |s'.workers| == |s.workers| && s'.interest == s.interest && s'.reported == s.reported
        && s'.queue == s.queue
    requires s'.open == CloseFd(s, fd, why).open && s'.conns == CloseFd(s, fd, why).conns
    requires forall v :: 0 <= v < |s.workers| && v != w ==> s'.workers[v] == s.workers[v]
    requires s.open[fd].Peer? && s.open[fd].conn < |s.conns| ==> ClosedStreamOk(sv, s.conns[s.open[fd].conn], why)
    ensures RestOk(sv, s', w)
  {
    hide Holding; hide Interested; hide Batched; hide Streaming;
    assert DescriptorOk(sv, s, fd);
    forall v | 0 <= v < |s.workers| && v != w
      ensures Good(sv, s', v)
    {
      assert Mine(s'.open, v) == Mine(s.open, v);
      OthersKeep(sv, s, s', v);
    }
    forall g | g in s'.open
      ensures DescriptorOk(sv, s', g)
    {
      assert DescriptorOk(sv, s, g);
    }
    forall d | 0 <= d < |s'.conns|
      ensures PhaseOk(s', d)
    {
      assert PhaseOk(s, d);
    }
  }

  ghost predicate AtClose(pc: Pc) {
    pc.Dropping? || pc.Closing? || pc.Cleaning? || pc.ClosingEpoll?
  }

  /** The descriptor a worker closes is one that it obtained, and the stream of its connection
      is one that may end for this reason. */
  lemma CloseTarget(sv: Server, s: State, w: nat, r: Reply)
    requires CanInvoke(sv, s, w, r) && AtClose(s.workers[w].pc)
    ensures var wk := s.workers[w];
            var fd := Request(sv.Cfg(), wk).fd;
            && fd in s.open && Owns(s.open[fd], w)
            && (s.open[fd].Peer? ==>
                ConnectedTo(s, fd) && ClosedStreamOk(sv, s.conns[s.open[fd].conn], CloseReason(wk.pc)))
  {
    hide Holding; hide Interested; hide Batched;
    var wk := s.workers[w];
    var mine := Mine(s.open, w);
    assert Good(sv, s, w);
    match wk.pc {
      case ClosingEpoll =>
        EpollIsOpen(sv, s, w);
      case Dropping(fd) =>
        InFlightIsOpen(sv, s, w);
        assert SlotTrue(sv, mine, s.conns, Slot(fd, 0)) && StreamOk(sv, s.conns[s.open[fd].conn]);
      case Closing(i, _) =>
        SlotIsOpen(sv, s, w, i);
        assert SlotTrue(sv, mine, s.conns, wk.table[i]) && Marked(sv, wk, i);
        assert StreamOk(sv, s.conns[s.open[wk.table[i].fd].conn]);
      case Cleaning(i) =>
        SlotIsOpen(sv, s, w, i);
        assert SlotTrue(sv, mine, s.conns, wk.table[i]) && Marked(sv, wk, i);
        assert StreamOk(sv, s.conns[s.open[wk.table[i].fd].conn]);
    }
  }

  ghost predicate ClosedStreamOk(sv: Server, k: Connection, why: Reason) {
    StreamOk(sv, k.(phase := Closed(why)))
  }

  /** And losing it keeps the worker. */
  lemma CloseLocal(sv: Server, s: State, w: nat, r: Reply)
    requires CanInvoke(sv, s, w, r) && AtClose(s.workers[w].pc)
    ensures var wk := s.workers[w];
            var fd := Request(sv.Cfg(), wk).fd;
            && fd in s.open && Owns(s.open[fd], w)
            && WorkerOk(sv, OnReply(sv.Cfg(), wk, r), Mine(s.open, w) - {fd}, s.interest[w], s.reported[w], s.conns)
  {
    hide Holding; hide Interested; hide Batched; hide Streaming;
    var wk := s.workers[w];
    var mine := Mine(s.open, w);
    CloseTarget(sv, s, w, r);
    assert Good(sv, s, w);
    match wk.pc {
      case ClosingEpoll => CloseEpollKeeps(sv, wk, mine, s.interest[w], s.reported[w], s.conns, r);
      case Dropping(_) => DropKeeps(sv, wk, mine, s.interest[w], s.reported[w], s.conns, r);
      case Closing(_, _) => CloseKeeps(sv, wk, mine, s.interest[w], s.reported[w], s.conns, r);
      case Cleaning(_) => CleanKeeps(sv, wk, mine, s.interest[w], s.reported[w], s.conns, r);
    }
  }

  lemma CloseStep(sv: Server, s: State, w: nat, r: Reply)
    requires CanInvoke(sv, s, w, r) && AtClose(s.workers[w].pc)
    ensures Inv(sv, Apply(sv, s, Invoke(w, r)))
  {
    hide Holding; hide Interested; hide Batched; hide Streaming;
    var s' := Apply(sv, s, Invoke(w, r));
    var wk := s.workers[w];
    var fd := Request(sv.Cfg(), wk).fd;
    CloseLocal(sv, s, w, r);
    CloseTarget(sv, s, w, r);
    assert Mine(s'.open, w) == Mine(s.open, w) - {fd};
    ConnsFrame(sv, s'.workers[w], Mine(s.open, w) - {fd}, s.interest[w], s.reported[w], s.conns, s'.conns);
    CloseRest(sv, s, s', w, fd, CloseReason(wk.pc));
  }

  // ---------------------------------------------------------------------------
  // All steps
  // ---------------------------------------------------------------------------

  lemma StepKeeps(sv: Server, s: State, a: Action)
    requires Inv(sv, s) && Enabled(sv, s, a)
    ensures Inv(sv, Apply(sv, s, a))
  {
    match a {
      case Branch(w) => BranchStepKeeps(sv, s, w);
      case Invoke(w, r) =>
        match s.workers[w].pc {
          case Starting => CreateStep(sv, s, w, r);
          case Accepting => AcceptStep(sv, s, w, r);
          case Sending(_) => SendStep(sv, s, w, r);
          case Dropping(_) => CloseStep(sv, s, w, r);
          case Closing(_, _) => CloseStep(sv, s, w, r);
          case Cleaning(_) => CloseStep(sv, s, w, r);
          case ClosingEpoll => CloseStep(sv, s, w, r);
          case _ => RegistrationStep(sv, s, w, r);
        }
      case _ => ClientStepKeeps(sv, s, a);
    }
  }

  /** The invariant holds after every run. */
  lemma {:induction false} RunKeeps(sv: Server, s: State, acts: seq<Action>)
    requires Inv(sv, s) && Run(sv, s, acts)
    ensures Inv(sv, After(sv, s, acts))
    decreases acts
  {
    if acts != [] {
      StepKeeps(sv, s, acts[0]);
      RunKeeps(sv, Apply(sv, s, acts[0]), acts[1..]);
    }
  }
}
