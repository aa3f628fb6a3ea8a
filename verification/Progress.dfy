/** How many steps there are to do, and that one of them can always be done. */
module Progress {
  import opened ClientTable
  import opened WorkerLoop
  import opened FileServer
  import opened ServerInvariant
  import opened ServerSteps
  import opened ServerTheorems

  // ---------------------------------------------------------------------------
  // The measure
  // ---------------------------------------------------------------------------

  /** Steps left for one connection: to be accepted, to be sent its bytes, to be closed. */
  function Weight(size: nat, k: Connection): nat {
    match k.phase
    case Unconnected => size + 2
    case Queued => size + 2
    case Open(_) => if |k.accepted| <= size then size - |k.accepted| + 1 else 1
    case Closed(_) => 0
  }

  function Total(size: nat, conns: seq<Connection>): nat {
    if conns == [] then 0 else Weight(size, conns[0]) + Total(size, conns[1..])
  }

  lemma {:induction false} TotalOfUpdate(size: nat, conns: seq<Connection>, c: nat, k: Connection)
    requires c < |conns|
    ensures Total(size, conns[c := k]) == Total(size, conns) - Weight(size, conns[c]) + Weight(size, k)
  {
    var conns' := conns[c := k];
    if c == 0 {
      assert conns'[1..] == conns[1..];
    } else {
      assert conns'[1..] == conns[1..][c - 1 := k];
      TotalOfUpdate(size, conns[1..], c - 1, k);
    }
  }

  lemma {:induction false} TotalOfNew(size: nat, conns: seq<Connection>)
    requires forall c :: 0 <= c < |conns| ==> conns[c] == NEW_CONNECTION
    ensures Total(size, conns) == |conns| * (size + 2)
  {
    if conns != [] {
      TotalOfNew(size, conns[1..]);
    }
  }

  /** The steps that do something for a connection: an accept that returns a connection, a
      send that takes bytes, and the close of a connection. */
  predicate Counts(sv: Server, s: State, a: Action)
    requires Shaped(s) && Enabled(sv, s, a)
  {
    a.Invoke? && match Request(sv.Cfg(), s.workers[a.w])
                 case Accept(_) => a.r.ret != -1
                 case Send(_, _, _) => a.r.ret > 0
                 case Close(fd) => ConnectedTo(s, fd)
                 case _ => false
  }

  function Counted(sv: Server, s: State, acts: seq<Action>): nat
    requires Shaped(s) && Run(sv, s, acts)
    decreases acts
  {
    if acts == [] then 0
    else (if Counts(sv, s, acts[0]) then 1 else 0) + Counted(sv, Apply(sv, s, acts[0]), acts[1..])
  }

  /** The connection whose stream or phase a call changes, and what it becomes. */
  lemma InvokeTouches(sv: Server, s: State, w: nat, r: Reply)
    requires CanInvoke(sv, s, w, r)
    ensures var s' := Apply(sv, s, Invoke(w, r));
            if Counts(sv, s, Invoke(w, r))
            then exists c :: Lighter(sv, s, s', c)
            else s'.conns == s.conns
  {
    if s.workers[w].pc.Sending? {
      SendTouches(sv, s, w, r);
    } else if s.workers[w].pc.Accepting? {
      AcceptTouches(sv, s, w, r);
    } else if AtClose(s.workers[w].pc) {
      CloseTouches(sv, s, w, r);
    }
  }

  /** Only connection `c` changes, and it has less to do. */
  ghost predicate Lighter(sv: Server, s: State, s': State, c: nat) {
    c < |s.conns| == |s'.conns| && s'.conns == s.conns[c := s'.conns[c]]
    && Weight(|sv.payload|, s'.conns[c]) < Weight(|sv.payload|, s.conns[c])
  }

  lemma SendTouches(sv: Server, s: State, w: nat, r: Reply)
    requires CanInvoke(sv, s, w, r) && s.workers[w].pc.Sending?
    ensures r.ret > 0 ==> exists c :: Lighter(sv, s, Apply(sv, s, Invoke(w, r)), c)
    ensures r.ret <= 0 ==> Apply(sv, s, Invoke(w, r)).conns == s.conns
  {
    hide Holding; hide Interested; hide Batched;
    assert Good(sv, s, w);
    var slot := s.workers[w].table[s.workers[w].pc.index];
    SlotIsOpen(sv, s, w, s.workers[w].pc.index);
    assert SlotTrue(sv, Mine(s.open, w), s.conns, slot);
    if r.ret > 0 {
      assert Lighter(sv, s, Apply(sv, s, Invoke(w, r)), s.open[slot.fd].conn);
    }
  }

  lemma AcceptTouches(sv: Server, s: State, w: nat, r: Reply)
    requires CanInvoke(sv, s, w, r) && s.workers[w].pc.Accepting?
    ensures r.ret != -1 ==> exists c :: Lighter(sv, s, Apply(sv, s, Invoke(w, r)), c)
    ensures r.ret == -1 ==> Apply(sv, s, Invoke(w, r)).conns == s.conns
  {
    hide WorkerOk;
    if r.ret != -1 {
      assert StreamOk(sv, s.conns[s.queue[0]]) && s.conns[s.queue[0]].phase == Queued;
      assert Lighter(sv, s, Apply(sv, s, Invoke(w, r)), s.queue[0]);
    }
  }

  lemma CloseTouches(sv: Server, s: State, w: nat, r: Reply)
    requires CanInvoke(sv, s, w, r) && AtClose(s.workers[w].pc)
    ensures var fd := Request(sv.Cfg(), s.workers[w]).fd;
            if ConnectedTo(s, fd) then exists c :: Lighter(sv, s, Apply(sv, s, Invoke(w, r)), c)
            else Apply(sv, s, Invoke(w, r)).conns == s.conns
  {
    hide WorkerOk;
    CloseLocal(sv, s, w, r);
    var fd := Request(sv.Cfg(), s.workers[w]).fd;
    if ConnectedTo(s, fd) {
      assert DescriptorOk(sv, s, fd);
      assert Lighter(sv, s, Apply(sv, s, Invoke(w, r)), s.open[fd].conn);
    }
  }

  lemma StepCosts(sv: Server, s: State, a: Action)
    requires Inv(sv, s) && Enabled(sv, s, a)
    ensures Total(|sv.payload|, Apply(sv, s, a).conns) + (if Counts(sv, s, a) then 1 else 0)
            <= Total(|sv.payload|, s.conns)
  {
    hide WorkerOk;
    var size := |sv.payload|;
    var s' := Apply(sv, s, a);
    if a.Invoke? {
      InvokeTouches(sv, s, a.w, a.r);
      if Counts(sv, s, a) {
        var c: nat :| Lighter(sv, s, s', c);
        TotalOfUpdate(size, s.conns, c, s'.conns[c]);
      }
    } else if !a.Branch? {
      TotalOfUpdate(size, s.conns, a.c, s'.conns[a.c]);
    }
  }

  lemma {:induction false} RunCosts(sv: Server, s: State, acts: seq<Action>)
    requires Inv(sv, s) && Run(sv, s, acts)
    ensures Counted(sv, s, acts) + Total(|sv.payload|, After(sv, s, acts).conns) <= Total(|sv.payload|, s.conns)
    decreases acts
  {
    if acts != [] {
      StepCosts(sv, s, acts[0]);
      StepKeeps(sv, s, acts[0]);
      RunCosts(sv, Apply(sv, s, acts[0]), acts[1..]);
    }
  }

  /** With N connections and a payload of L bytes, no run has more than N * (L + 2) accepts,
      sends that take bytes and closes, whatever the number of workers. */
  lemma BoundedWork(sv: Server, s0: State, acts: seq<Action>)
    requires Init(sv, s0) && Run(sv, s0, acts)
    ensures Counted(sv, s0, acts) <= |s0.conns| * (|sv.payload| + 2)
  {
    InitInv(sv, s0);
    RunCosts(sv, s0, acts);
    TotalOfNew(|sv.payload|, s0.conns);
  }

  // ---------------------------------------------------------------------------
  // Something can always be done
  // ---------------------------------------------------------------------------

  ghost predicate IsBy(a: Action, w: nat) {
    (a.Invoke? || a.Branch?) && a.w == w
  }

  ghost predicate SlotIsReset(s: State, fd: Fd) {
    ConnectedTo(s, fd) && s.conns[s.open[fd].conn].reset
  }

  /** Worker `w` is not about to give up a connection that still works. */
  ghost predicate Healthy(s: State, w: nat)
    requires Shaped(s) && w < |s.workers|
  {
    var wk := s.workers[w];
    && !wk.pc.Dropping?
    && (wk.pc.Deleting? || wk.pc.Closing? ==>
        wk.pc.why == Finished || (wk.pc.index < |wk.table| && SlotIsReset(s, wk.table[wk.pc.index].fd)))
    && (InBatch(wk.pc) ==> forall j :: wk.pos <= j < |wk.batch| ==> !wk.batch[j].errorOrHangUp)
  }

  /** The call succeeds: it reports no error, and a send takes bytes unless the connection
      is reset. */
  ghost predicate Favourable(s: State, a: Action)
    requires Shaped(s)
  {
    a.Invoke? && a.w < |s.workers| ==>
      var wk := s.workers[a.w];
      match wk.pc
      case Waiting => forall j :: 0 <= j < |a.r.events| ==> !a.r.events[j].errorOrHangUp
      case Configuring(_) => a.r.ret != -1
      case Registering(_) => a.r.ret != -1
      case Sending(i) => a.r.ret > 0 || (i < |wk.table| && SlotIsReset(s, wk.table[i].fd))
      case _ => true
  }

  /** What was closed between `s` and `s'` was closed as finished, or had been reset. */
  ghost predicate Completes(s: State, s': State) {
    && |s'.conns| == |s.conns|
    && forall c :: 0 <= c < |s.conns| ==>
         && s'.conns[c].reset == s.conns[c].reset
         && (!s.conns[c].phase.Unconnected? ==> !s'.conns[c].phase.Unconnected?)
         && (s.conns[c].phase.Closed? ==> s'.conns[c].phase == s.conns[c].phase)
         && (!s.conns[c].phase.Closed? && s'.conns[c].phase.Closed? ==>
             s'.conns[c].phase.why == Finished || s.conns[c].reset)
  }

  /** From `s`, worker `w` alone gets to `s'` and is still in its main loop. */
  ghost predicate Leads(sv: Server, s: State, w: nat, acts: seq<Action>, s': State) {
    && Inv(sv, s) && Run(sv, s, acts) && s' == After(sv, s, acts) && Inv(sv, s')
    && (forall i :: 0 <= i < |acts| ==> IsBy(acts[i], w))
    && w < |s.workers| && Serving(s'.workers[w].pc)
    && (forall v :: 0 <= v < |s.workers| && v != w ==> Mine(s'.open, v) == Mine(s.open, v))
    && (Healthy(s, w) ==> Healthy(s', w) && Completes(s, s'))
  }

  lemma Stay(sv: Server, s: State, w: nat)
    requires Inv(sv, s) && w < |s.workers| && Serving(s.workers[w].pc)
    ensures Leads(sv, s, w, [], s)
  {
  }

  lemma Join(sv: Server, s: State, w: nat, a: seq<Action>, s1: State, b: seq<Action>, s2: State)
    requires Leads(sv, s, w, a, s1) && Leads(sv, s1, w, b, s2)
    ensures Leads(sv, s, w, a + b, s2)
  {
    RunSplit(sv, s, a, b);
  }

  lemma Step(sv: Server, s: State, w: nat, a: Action) returns (s': State)
    requires Inv(sv, s) && Enabled(sv, s, a) && IsBy(a, w) && Favourable(s, a)
    requires Serving(Apply(sv, s, a).workers[w].pc)
    ensures s' == Apply(sv, s, a) && Leads(sv, s, w, [a], s')
    ensures Total(|sv.payload|, s'.conns) + (if Counts(sv, s, a) then 1 else 0) <= Total(|sv.payload|, s.conns)
  {
    s' := Apply(sv, s, a);
    assert [a][1..] == [];
    assert After(sv, s, [a]) == s';
    StepKeeps(sv, s, a);
    StepCosts(sv, s, a);
    forall v | 0 <= v < |s.workers| && v != w
      ensures Mine(s'.open, v) == Mine(s.open, v)
    {
      OthersKeepTheirs(sv, s, a, v);
    }
    if Healthy(s, w) {
      StaysHealthy(sv, s, a, w);
    }
  }

  lemma OthersKeepTheirs(sv: Server, s: State, a: Action, v: nat)
    requires Inv(sv, s) && Enabled(sv, s, a) && (a.Invoke? || a.Branch?) && a.w != v
    ensures Mine(Apply(sv, s, a).open, v) == Mine(s.open, v)
  {
    if a.Invoke? {
      OpenChanges(sv, s, a.w, a.r);
    }
  }

  /** A call of worker `w` changes the descriptor table at most at one descriptor, one that
      was free before or is free afterwards, and that is its own. */
  lemma OpenChanges(sv: Server, s: State, w: nat, r: Reply)
    requires CanInvoke(sv, s, w, r)
    ensures var s' := Apply(sv, s, Invoke(w, r));
            || s'.open == s.open
            || (r.ret !in s.open && r.ret in s'.open && Owns(s'.open[r.ret], w)
                && s'.open == s.open[r.ret := s'.open[r.ret]])
            || (exists fd :: fd in s.open && Owns(s.open[fd], w) && s'.open == s.open - {fd})
  {
    hide WorkerOk;
    var pc := s.workers[w].pc;
    if AtClose(pc) {
      CloseChanges(sv, s, w, r);
    } else if pc.Starting? || pc.Accepting? {
      ObtainChanges(sv, s, w, r);
    } else {
      SameDescriptors(sv, s, w, r);
    }
  }

  lemma CloseChanges(sv: Server, s: State, w: nat, r: Reply)
    requires CanInvoke(sv, s, w, r) && AtClose(s.workers[w].pc)
    ensures exists fd :: fd in s.open && Owns(s.open[fd], w) && Apply(sv, s, Invoke(w, r)).open == s.open - {fd}
  {
    hide WorkerOk;
    CloseLocal(sv, s, w, r);
  }

  lemma ObtainChanges(sv: Server, s: State, w: nat, r: Reply)
    requires CanInvoke(sv, s, w, r) && (s.workers[w].pc.Starting? || s.workers[w].pc.Accepting?)
    ensures var s' := Apply(sv, s, Invoke(w, r));
            if r.ret == -1 then s'.open == s.open
            else
              && r.ret !in s.open && r.ret in s'.open && Owns(s'.open[r.ret], w)
              && s'.open == s.open[r.ret := s'.open[r.ret]]
  {
  }

  lemma StaysHealthy(sv: Server, s: State, a: Action, w: nat)
    requires Inv(sv, s) && Enabled(sv, s, a) && IsBy(a, w) && Favourable(s, a) && Healthy(s, w)
    requires Serving(Apply(sv, s, a).workers[w].pc)
    ensures Healthy(Apply(sv, s, a), w) && Completes(s, Apply(sv, s, a))
  {
    var pc := s.workers[w].pc;
    if a.Branch? {
      BranchHealthy(sv, s, w);
    } else if pc.Sending? || pc.Deleting? {
      SlotHealthy(sv, s, w, a.r);
    } else if pc.Closing? {
      CloseCompletes(sv, s, w, a.r);
    } else {
      OtherHealthy(sv, s, w, a.r);
    }
  }

  lemma BranchHealthy(sv: Server, s: State, w: nat)
    requires Inv(sv, s) && Enabled(sv, s, Branch(w)) && Healthy(s, w)
    ensures Healthy(Apply(sv, s, Branch(w)), w) && Completes(s, Apply(sv, s, Branch(w)))
  {
  }

  lemma SlotHealthy(sv: Server, s: State, w: nat, r: Reply)
    requires CanInvoke(sv, s, w, r) && Favourable(s, Invoke(w, r)) && Healthy(s, w)
    requires s.workers[w].pc.Sending? || s.workers[w].pc.Deleting?
    ensures Healthy(Apply(sv, s, Invoke(w, r)), w) && Completes(s, Apply(sv, s, Invoke(w, r)))
  {
    hide Holding; hide Interested; hide Streaming;
    SlotIsOpen(sv, s, w, s.workers[w].pc.index);
  }

  lemma OtherHealthy(sv: Server, s: State, w: nat, r: Reply)
    requires CanInvoke(sv, s, w, r) && Favourable(s, Invoke(w, r)) && Healthy(s, w)
    requires !OnSlot(s.workers[w].pc) && Serving(Apply(sv, s, Invoke(w, r)).workers[w].pc)
    ensures Healthy(Apply(sv, s, Invoke(w, r)), w) && Completes(s, Apply(sv, s, Invoke(w, r)))
  {
    hide KernelOk;
    hide Holding; hide Interested; hide Streaming;
    if s.workers[w].pc.Accepting? {
      AcceptCompletes(sv, s, w, r);
    }
  }

  lemma AcceptCompletes(sv: Server, s: State, w: nat, r: Reply)
    requires CanInvoke(sv, s, w, r) && s.workers[w].pc.Accepting?
    ensures Completes(s, Apply(sv, s, Invoke(w, r)))
  {
    hide WorkerOk;
    assert r.ret != -1 ==> s.conns[s.queue[0]].phase == Queued;
  }

  lemma CloseCompletes(sv: Server, s: State, w: nat, r: Reply)
    requires CanInvoke(sv, s, w, r) && Healthy(s, w) && s.workers[w].pc.Closing?
    ensures Healthy(Apply(sv, s, Invoke(w, r)), w) && Completes(s, Apply(sv, s, Invoke(w, r)))
  {
    hide Holding; hide Interested;
    SlotIsOpen(sv, s, w, s.workers[w].pc.index);
  }

  /** A descriptor number that is not in use. */
  lemma FreshFd(open: map<Fd, Resource>) returns (fd: Fd)
    ensures fd >= 0 && fd !in open
  {
    fd := Above(open.Keys);
  }

  lemma {:induction false} Above(fds: set<Fd>) returns (bound: Fd)
    ensures bound >= 0 && forall f :: f in fds ==> f < bound
    decreases fds
  {
    if f :| f in fds {
      bound := Above(fds - {f});
      assert forall g :: g in fds ==> g == f || g in fds - {f};
      if bound <= f { bound := f + 1; }
    } else {
      bound := 0;
    }
  }

  ghost predicate HasWork(s: State, w: nat)
    requires Shaped(s) && w < |s.workers|
  {
    s.queue != [] || s.workers[w].table != [] || InFlight(s.workers[w].pc)
  }

  /** Places from which the next counted step is a few calls away. */
  predicate AtWork(s: State, pc: Pc) {
    OnSlot(pc) || pc.Dropping? || (pc.Accepting? && s.queue != [])
  }

  lemma WorkCounts(sv: Server, s: State, w: nat) returns (acts: seq<Action>, s': State)
    requires Inv(sv, s) && w < |s.workers| && AtWork(s, s.workers[w].pc)
    ensures Leads(sv, s, w, acts, s') && Total(|sv.payload|, s'.conns) < Total(|sv.payload|, s.conns)
  {
    hide Holding; hide Interested; hide Batched; hide Streaming; hide Healthy; hide Completes; hide Run; hide After;
    assert Good(sv, s, w);
    var pc := s.workers[w].pc;
    if pc.Accepting? {
      var fd := FreshFd(s.open);
      acts := [Invoke(w, Ret(fd))];
      s' := Step(sv, s, w, acts[0]);
    } else if pc.Dropping? {
      InFlightIsOpen(sv, s, w);
      acts := [Invoke(w, Ret(0))];
      s' := Step(sv, s, w, acts[0]);
    } else if pc.Sending? {
      acts, s' := SendCounts(sv, s, w);
    } else if pc.Closing? {
      acts, s' := CloseCounts(sv, s, w);
    } else {
      acts, s' := RemovalCounts(sv, s, w);
    }
  }

  lemma CloseCounts(sv: Server, s: State, w: nat) returns (acts: seq<Action>, s': State)
    requires Inv(sv, s) && w < |s.workers| && s.workers[w].pc.Closing?
    ensures Leads(sv, s, w, acts, s') && Total(|sv.payload|, s'.conns) < Total(|sv.payload|, s.conns)
  {
    hide Holding; hide Interested; hide Batched; hide Streaming; hide Healthy; hide Completes; hide Run; hide After;
    assert Good(sv, s, w);
    SlotIsOpen(sv, s, w, s.workers[w].pc.index);
    acts := [Invoke(w, Ret(0))];
    s' := Step(sv, s, w, acts[0]);
  }

  lemma RemovalCounts(sv: Server, s: State, w: nat) returns (acts: seq<Action>, s': State)
    requires Inv(sv, s) && w < |s.workers| && s.workers[w].pc.Deleting?
    ensures Leads(sv, s, w, acts, s') && Total(|sv.payload|, s'.conns) < Total(|sv.payload|, s.conns)
  {
    hide Holding; hide Interested; hide Batched; hide Streaming; hide Healthy; hide Completes; hide Run; hide After;
    assert Good(sv, s, w);
    var first := [Invoke(w, Ret(0))];
    var s1 := Step(sv, s, w, first[0]);
    acts, s' := CloseCounts(sv, s1, w);
    Join(sv, s, w, first, s1, acts, s');
    acts := first + acts;
  }

  /** A send takes all that is left if the connection still works, else it fails and the
      connection is closed. */
  lemma SendCounts(sv: Server, s: State, w: nat) returns (acts: seq<Action>, s': State)
    requires Inv(sv, s) && w < |s.workers| && s.workers[w].pc.Sending?
    ensures Leads(sv, s, w, acts, s') && Total(|sv.payload|, s'.conns) < Total(|sv.payload|, s.conns)
  {
    hide Leads; hide Holding; hide Interested; hide Batched; hide Streaming;
    assert Good(sv, s, w);
    if SlotIsReset(s, s.workers[w].table[s.workers[w].pc.index].fd) {
      acts, s' := FailedSendCounts(sv, s, w);
    } else {
      acts, s' := WholeSendCounts(sv, s, w);
    }
  }

  lemma FailedSendCounts(sv: Server, s: State, w: nat) returns (acts: seq<Action>, s': State)
    requires Inv(sv, s) && w < |s.workers| && s.workers[w].WellFormed() && s.workers[w].pc.Sending?
    requires SlotIsReset(s, s.workers[w].table[s.workers[w].pc.index].fd)
    ensures Leads(sv, s, w, acts, s') && Total(|sv.payload|, s'.conns) < Total(|sv.payload|, s.conns)
  {
    hide Holding; hide Interested; hide Batched; hide Streaming; hide Healthy; hide Completes; hide Run; hide After;
    var first := [Invoke(w, Ret(-1))];
    var s1 := Step(sv, s, w, first[0]);
    acts, s' := RemovalCounts(sv, s1, w);
    Join(sv, s, w, first, s1, acts, s');
    acts := first + acts;
  }

  lemma WholeSendCounts(sv: Server, s: State, w: nat) returns (acts: seq<Action>, s': State)
    requires Inv(sv, s) && w < |s.workers| && s.workers[w].WellFormed() && s.workers[w].pc.Sending?
    requires !SlotIsReset(s, s.workers[w].table[s.workers[w].pc.index].fd)
    ensures Leads(sv, s, w, acts, s') && Total(|sv.payload|, s'.conns) < Total(|sv.payload|, s.conns)
  {
    hide Holding; hide Interested; hide Batched; hide Healthy; hide Completes; hide Run; hide After;
    var slot := s.workers[w].table[s.workers[w].pc.index];
    SlotIsOpen(sv, s, w, s.workers[w].pc.index);
    assert Good(sv, s, w);
    acts := [Invoke(w, Ret(|sv.payload| - slot.sent))];
    s' := Step(sv, s, w, acts[0]);
  }

  /** A wait that reports the first client as writable, or the listener, leads to work. */
  lemma WaitLeadsToWork(sv: Server, s: State, w: nat) returns (acts: seq<Action>, s': State)
    requires Inv(sv, s) && w < |s.workers| && s.workers[w].pc.Waiting? && HasWork(s, w)
    ensures Leads(sv, s, w, acts, s') && AtWork(s', s'.workers[w].pc) && s'.conns == s.conns
  {
    var a := Invoke(w, Reply(1, OTHER, [Event(FirstTarget(sv, s.workers[w]), true, false)]));
    CanReport(sv, s, w, a.r);
    var s1 := Step(sv, s, w, a);
    TargetLeadsToWork(sv, s, s1.workers[w], w);
    s' := Step(sv, s1, w, Branch(w));
    Join(sv, s, w, [a], s1, [Branch(w)], s');
    acts := [a] + [Branch(w)];
  }

  /** The first client, or the listener if there is none. */
  function FirstTarget(sv: Server, wk: Worker): Fd {
    if wk.table == [] then sv.listenFd else wk.table[0].fd
  }

  lemma CanReport(sv: Server, s: State, w: nat, r: Reply)
    requires Inv(sv, s) && w < |s.workers| && s.workers[w].pc.Waiting?
    requires r == Reply(1, OTHER, [Event(FirstTarget(sv, s.workers[w]), true, false)])
    ensures Enabled(sv, s, Invoke(w, r))
  {
    assert Good(sv, s, w);
    var wk := s.workers[w];
    if wk.table != [] {
      assert InSlot(wk, wk.table[0].fd) && HoldsClient(wk, wk.table[0].fd);
      SlotIsOpen(sv, s, w, 0);
    }
    assert Watched(s, w, r.events[0].fd);
  }

  lemma TargetLeadsToWork(sv: Server, s: State, wk': Worker, w: nat)
    requires Inv(sv, s) && w < |s.workers| && s.workers[w].pc.Waiting? && HasWork(s, w)
    requires var batch := [Event(FirstTarget(sv, s.workers[w]), true, false)];
             wk' == s.workers[w].(pc := Dispatching, batch := batch, pos := 0)
    ensures wk'.WellFormed() && AtWork(s, Dispatch(sv.Cfg(), wk').pc)
  {
    assert Good(sv, s, w);
    if wk'.table != [] {
      SlotIsOpen(sv, s, w, 0);
    }
  }

  function Rank(wk: Worker): nat {
    8 * (if wk.pos <= |wk.batch| then |wk.batch| - wk.pos else 0)
    + match wk.pc
      case Dispatching => 4
      case Configuring(_) => 3
      case Registering(_) => 2
      case _ => 1
  }

  /** From anywhere in its main loop a worker that has something to do can do it. */
  lemma {:induction false} WorkIsPossible(sv: Server, s: State, w: nat) returns (acts: seq<Action>, s': State)
    requires Inv(sv, s) && w < |s.workers| && Serving(s.workers[w].pc) && HasWork(s, w)
    ensures Leads(sv, s, w, acts, s') && Total(|sv.payload|, s'.conns) < Total(|sv.payload|, s.conns)
    decreases if s.workers[w].pc.Waiting? then 0 else Rank(s.workers[w])
  {
    var pc := s.workers[w].pc;
    if AtWork(s, pc) {
      acts, s' := WorkCounts(sv, s, w);
    } else {
      var first, s1;
      if pc.Waiting? {
        first, s1 := WaitLeadsToWork(sv, s, w);
        acts, s' := WorkCounts(sv, s1, w);
      } else {
        first, s1 := MoveOn(sv, s, w);
        acts, s' := WorkIsPossible(sv, s1, w);
      }
      Join(sv, s, w, first, s1, acts, s');
      acts := first + acts;
    }
  }

  lemma BranchMoves(cfg: Config, wk: Worker)
    requires wk.WellFormed() && wk.pc.Dispatching?
    ensures var wk' := Dispatch(cfg, wk);
            && Serving(wk'.pc) && wk'.table == wk.table
            && (wk'.pc.Waiting? || Rank(wk') < Rank(wk))
  {
  }

  lemma ReplyMoves(cfg: Config, wk: Worker)
    requires wk.WellFormed() && (wk.pc.Accepting? || wk.pc.Configuring? || wk.pc.Registering?) && wk.pos < |wk.batch|
    ensures var wk' := OnReply(cfg, wk, SetupReply(wk.pc));
            && InBatch(wk'.pc) && Rank(wk') < Rank(wk)
            && (wk.pc.Accepting? ==> wk'.table == wk.table)
            && (InFlight(wk.pc) ==> InFlight(wk'.pc) || wk'.table != [])
  {
  }

  /** Nobody to accept, or the setup call succeeds. */
  function SetupReply(pc: Pc): Reply {
    if pc.Accepting? then Reply(-1, EAGAIN, []) else Ret(0)
  }

  /** One step on inside a batch, towards its end or towards work. */
  lemma MoveOn(sv: Server, s: State, w: nat) returns (acts: seq<Action>, s': State)
    requires Inv(sv, s) && w < |s.workers| && InBatch(s.workers[w].pc) && HasWork(s, w) && !AtWork(s, s.workers[w].pc)
    ensures Leads(sv, s, w, acts, s') && HasWork(s', w)
    ensures s'.conns == s.conns
    ensures s'.workers[w].pc.Waiting? || Rank(s'.workers[w]) < Rank(s.workers[w])
  {
    hide Holding; hide Interested; hide Streaming; hide Healthy; hide Completes; hide Run; hide After;
    assert Good(sv, s, w);
    var wk := s.workers[w];
    if wk.pc.Dispatching? {
      BranchMoves(sv.Cfg(), wk);
      s' := Step(sv, s, w, Branch(w));
      acts := [Branch(w)];
    } else {
      ReplyMoves(sv.Cfg(), wk);
      var a := Invoke(w, SetupReply(wk.pc));
      s' := Step(sv, s, w, a);
      acts := [a];
    }
  }

  /** A full table strands nobody: a worker in its main loop can accept every waiting
      connection, and send to and close every connection it holds. */
  lemma {:induction false} Drain(sv: Server, s: State, w: nat) returns (acts: seq<Action>, s': State)
    requires Inv(sv, s) && w < |s.workers| && Serving(s.workers[w].pc)
    ensures Leads(sv, s, w, acts, s') && !HasWork(s', w)
    decreases Total(|sv.payload|, s.conns)
  {
    if HasWork(s, w) {
      var first, s1 := WorkIsPossible(sv, s, w);
      acts, s' := Drain(sv, s1, w);
      Join(sv, s, w, first, s1, acts, s');
      acts := first + acts;
    } else {
      acts, s' := [], s;
      Stay(sv, s, w);
    }
  }

  /** Connection `c` waits to be accepted, or is held by worker `w`. */
  ghost predicate WaitsFor(s: State, w: nat, c: nat)
    requires Shaped(s) && w < |s.workers| && c < |s.conns|
  {
    || s.conns[c].phase == Queued
    || (s.conns[c].phase.Open? && s.conns[c].phase.fd in Mine(s.open, w))
  }

  /** From every reachable state in which a worker is in `epoll_wait`, however many
      connections wait and however full its table is, that worker alone can go on so that
      every waiting connection and every connection it holds is closed, and each of them
      that the network has not reset was handed the whole payload. */
  lemma {:induction false} EverybodyCanBeServed(sv: Server, s0: State, before: seq<Action>, s: State, w: nat)
    returns (acts: seq<Action>, s': State)
    requires Reaches(sv, s0, before, s) && w < |s.workers| && s.workers[w].pc.Waiting?
    ensures Run(sv, s, acts) && s' == After(sv, s, acts) && forall i :: 0 <= i < |acts| ==> IsBy(acts[i], w)
    ensures s'.queue == [] && s'.workers[w].table == []
    ensures forall c :: 0 <= c < |s.conns| && WaitsFor(s, w, c) ==> s'.conns[c].phase.Closed?
    ensures forall c :: 0 <= c < |s.conns| && WaitsFor(s, w, c) && !s.conns[c].reset ==>
        s'.conns[c].accepted == sv.payload
  {
    Reached(sv, s0, before, s);
    acts, s' := Drain(sv, s, w);
    forall c | 0 <= c < |s.conns| && WaitsFor(s, w, c)
      ensures s'.conns[c].phase.Closed?
      ensures !s.conns[c].reset ==> s'.conns[c].accepted == sv.payload
    {
      Served(sv, s, w, acts, s', c);
      assert StreamOk(sv, s'.conns[c]);
    }
  }

  lemma Served(sv: Server, s: State, w: nat, acts: seq<Action>, s': State, c: nat)
    requires Leads(sv, s, w, acts, s') && Healthy(s, w) && !HasWork(s', w)
    requires c < |s.conns| && WaitsFor(s, w, c)
    ensures s'.conns[c].phase.Closed?
    ensures !s.conns[c].reset ==> s'.conns[c].phase.why == Finished
  {
    assert PhaseOk(s, c) && PhaseOk(s', c);
    assert Good(sv, s', w);
    assert forall fd :: !HoldsClient(s'.workers[w], fd);
    assert forall g :: g in s.open && s.open[g].Peer? ==> DescriptorOk(sv, s, g);
    assert forall g :: g in s'.open && s'.open[g].Peer? ==> g in Mine(s'.open, s'.open[g].owner);
    assert forall g :: g in s'.open ==> DescriptorOk(sv, s', g);
    if s'.conns[c].phase.Open? {
      assert false;
    }
  }
}
