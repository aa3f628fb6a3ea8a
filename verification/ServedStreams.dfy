/** The epoll server as one of the senders: what a run hands to a connection is what the
    abstract sender makes of the `send` calls of that run on it. */
module ServedStreams {
  import opened ClientTable
  import opened WorkerLoop
  import opened FileServer
  import opened ServerInvariant
  import opened ServerSteps
  import opened ServerTheorems
  import opened Progress
  import opened Senders

  /** Worker `w` is about to call `send` on connection `c`. */
  predicate SendsTo(s: State, w: nat, c: nat) {
    && w < |s.workers|
    && var wk := s.workers[w];
       && wk.pc.Sending? && wk.pc.index < |wk.table|
       && ConnectedTo(s, wk.table[wk.pc.index].fd) && s.open[wk.table[wk.pc.index].fd].conn == c
  }

  function Attempted(s: State, a: Action, c: nat): seq<Attempt> {
    if a.Invoke? && SendsTo(s, a.w, c) then [StepAttempt(a.r)] else []
  }

  /** What the `send` calls on connection `c` came to along a run, whichever worker made them. */
  ghost function AttemptsOn(sv: Server, s: State, acts: seq<Action>, c: nat): seq<Attempt>
    requires Shaped(s) && Run(sv, s, acts)
    decreases acts
  {
    if acts == [] then []
    else Attempted(s, acts[0], c) + AttemptsOn(sv, Apply(sv, s, acts[0]), acts[1..], c)
  }

  /** Worker `w` is removing connection `c` because a send on it failed. */
  predicate GivingUp(s: State, w: nat, c: nat) {
    && w < |s.workers|
    && var wk := s.workers[w];
       && (wk.pc.Deleting? || wk.pc.Closing?) && wk.pc.why == SendFailed && wk.pc.index < |wk.table|
       && ConnectedTo(s, wk.table[wk.pc.index].fd) && s.open[wk.table[wk.pc.index].fd].conn == c
  }

  ghost predicate GivenUp(s: State, c: nat)
    requires c < |s.conns|
  {
    s.conns[c].phase == Closed(SendFailed) || exists w :: GivingUp(s, w, c)
  }

  /** The attempts `t` explain what connection `c` was handed. */
  ghost predicate Explains(sv: Server, s: State, c: nat, t: seq<Attempt>)
    requires c < |s.conns|
  {
    && Fits(|sv.payload|, t) && QuietHalts(t)
    && Deliver(sv.payload, t).wire == s.conns[c].accepted
    && (if NoHalt(t) then Underway(sv.payload, t, |s.conns[c].accepted|, s.conns[c].accepted) && !GivenUp(s, c)
        else Deliver(sv.payload, t).end == Stopped && GivenUp(s, c))
  }

  // ---------------------------------------------------------------------------
  // Steps that send nothing
  // ---------------------------------------------------------------------------

  lemma OnlySendsHandOver(sv: Server, s: State, w: nat, call: Call, r: Reply, c: nat)
    requires Shaped(s) && w < |s.workers| && Possible(s, w, call, r) && c < |s.conns|
    requires call.Send? && ConnectedTo(s, call.fd) ==> s.open[call.fd].conn != c
    ensures KernelEffect(sv, s, w, call, r).conns[c].accepted == s.conns[c].accepted
  {
  }

  /** Only a send to a connection changes what it was handed. */
  lemma AcceptedStays(sv: Server, s: State, a: Action, c: nat)
    requires Inv(sv, s) && Enabled(sv, s, a) && c < |s.conns| && Attempted(s, a, c) == []
    ensures Apply(sv, s, a).conns[c].accepted == s.conns[c].accepted
  {
    hide WorkerOk; hide KernelOk; hide KernelEffect;
    if a.Invoke? { OnlySendsHandOver(sv, s, a.w, Request(sv.Cfg(), s.workers[a.w]), a.r, c); }
  }

  /** A connection that is closed stays closed, for the same reason. */
  lemma ClosedStays(sv: Server, s: State, a: Action, c: nat)
    requires Inv(sv, s) && Enabled(sv, s, a) && c < |s.conns| && s.conns[c].phase.Closed?
    ensures Apply(sv, s, a).conns[c].phase == s.conns[c].phase
  {
    hide WorkerOk;
    if a.Invoke? && AtClose(s.workers[a.w].pc) {
      CloseTarget(sv, s, a.w, a.r);
      var fd := Request(sv.Cfg(), s.workers[a.w]).fd;
      assert DescriptorOk(sv, s, fd);
    }
  }

  /** A connection that is given up stays so. */
  lemma GivenUpStays(sv: Server, s: State, a: Action, c: nat)
    requires Inv(sv, s) && Enabled(sv, s, a) && c < |s.conns| && GivenUp(s, c)
    ensures GivenUp(Apply(sv, s, a), c)
  {
    hide WorkerOk;
    if s.conns[c].phase.Closed? {
      ClosedStays(sv, s, a, c);
    } else {
      var w :| GivingUp(s, w, c);
      if (a.Invoke? || a.Branch?) && a.w == w {
        OwnRemoval(sv, s, a, w, c);
      } else {
        OthersRemoval(sv, s, a, w, c);
      }
    }
  }

  lemma OwnRemoval(sv: Server, s: State, a: Action, w: nat, c: nat)
    requires Inv(sv, s) && Enabled(sv, s, a) && c < |s.conns| && GivingUp(s, w, c)
    requires (a.Invoke? || a.Branch?) && a.w == w
    ensures GivingUp(Apply(sv, s, a), w, c) || Apply(sv, s, a).conns[c].phase == Closed(SendFailed)
  {
    hide WorkerOk; hide KernelOk;
  }

  lemma OthersRemoval(sv: Server, s: State, a: Action, w: nat, c: nat)
    requires Inv(sv, s) && Enabled(sv, s, a) && c < |s.conns| && GivingUp(s, w, c)
    requires !((a.Invoke? || a.Branch?) && a.w == w)
    ensures GivingUp(Apply(sv, s, a), w, c)
  {
    hide WorkerOk; hide KernelOk; hide KernelEffect;
    SlotIsOpen(sv, s, w, s.workers[w].pc.index);
    if a.Invoke? {
      OpenChanges(sv, s, a.w, a.r);
      SameConnections(sv, s, a.w, a.r);
    }
  }

  lemma SameConnections(sv: Server, s: State, w: nat, r: Reply)
    requires Shaped(s) && Enabled(sv, s, Invoke(w, r))
    ensures |Apply(sv, s, Invoke(w, r)).conns| == |s.conns|
    ensures forall v :: 0 <= v < |s.workers| && v != w ==> Apply(sv, s, Invoke(w, r)).workers[v] == s.workers[v]
  {
  }

  /** A connection is given up only after a send on it that failed. */
  lemma GivenUpBySend(sv: Server, s: State, a: Action, c: nat)
    requires Inv(sv, s) && Enabled(sv, s, a) && c < |s.conns| && GivenUp(Apply(sv, s, a), c) && !GivenUp(s, c)
    ensures a.Invoke? && SendsTo(s, a.w, c) && StepAttempt(a.r).Halt?
  {
    hide WorkerOk; hide KernelOk;
    var s' := Apply(sv, s, a);
    if s'.conns[c].phase == Closed(SendFailed) {
      NotClosedBySurprise(sv, s, a, c);
    } else {
      var w :| GivingUp(s', w, c);
      NotRemovedBySurprise(sv, s, a, w, c);
    }
  }

  lemma NotClosedBySurprise(sv: Server, s: State, a: Action, c: nat)
    requires Inv(sv, s) && Enabled(sv, s, a) && c < |s.conns|
    requires Apply(sv, s, a).conns[c].phase == Closed(SendFailed)
    ensures GivenUp(s, c)
  {
    hide WorkerOk; hide KernelOk;
    if s.conns[c].phase != Closed(SendFailed) {
      assert a.Invoke? && s.workers[a.w].pc.Closing?;
      assert GivingUp(s, a.w, c);
    }
  }

  lemma OwnGivingUp(sv: Server, s: State, a: Action, w: nat, c: nat)
    requires Inv(sv, s) && Enabled(sv, s, a) && c < |s.conns| && GivingUp(Apply(sv, s, a), w, c)
    requires (a.Invoke? || a.Branch?) && a.w == w
    ensures GivingUp(s, w, c) || (a.Invoke? && SendsTo(s, w, c) && StepAttempt(a.r).Halt?)
  {
    hide WorkerOk; hide KernelOk; hide KernelEffect;
    if a.Invoke? && (s.workers[w].pc.Sending? || s.workers[w].pc.Deleting?) {
      SameDescriptors(sv, s, w, a.r);
    }
  }

  lemma NotRemovedBySurprise(sv: Server, s: State, a: Action, w: nat, c: nat)
    requires Inv(sv, s) && Enabled(sv, s, a) && c < |s.conns| && GivingUp(Apply(sv, s, a), w, c)
    ensures GivingUp(s, w, c) || (a.Invoke? && a.w == w && SendsTo(s, w, c) && StepAttempt(a.r).Halt?)
  {
    hide WorkerOk; hide KernelOk;
    if !((a.Invoke? || a.Branch?) && a.w == w) {
      hide KernelEffect;
      if a.Invoke? {
        SameConnections(sv, s, a.w, a.r);
        OpenChanges(sv, s, a.w, a.r);
      }
      SlotIsOpen(sv, s, w, s.workers[w].pc.index);
    } else {
      OwnGivingUp(sv, s, a, w, c);
    }
  }

  // ---------------------------------------------------------------------------
  // Steps that send
  // ---------------------------------------------------------------------------

  /** While a send is pending on a connection, nobody is giving it up. */
  lemma SenderIsAlive(sv: Server, s: State, w: nat, c: nat)
    requires Inv(sv, s) && c < |s.conns| && SendsTo(s, w, c)
    ensures !GivenUp(s, c)
  {
    hide WorkerOk; hide KernelOk;
    SlotIsOpen(sv, s, w, s.workers[w].pc.index);
    if v: nat :| GivingUp(s, v, c) {
      PlaceIsUnique(sv, s, c, InTable(w, s.workers[w].pc.index), InTable(v, s.workers[v].pc.index));
    }
  }

  lemma SendExplains(sv: Server, s: State, w: nat, r: Reply, c: nat, t: seq<Attempt>)
    requires Inv(sv, s) && Enabled(sv, s, Invoke(w, r)) && c < |s.conns| && Explains(sv, s, c, t) && SendsTo(s, w, c)
    ensures Explains(sv, Apply(sv, s, Invoke(w, r)), c, t + [StepAttempt(r)])
  {
    hide Fits; hide Deliver; hide Moved; hide NoHalt; hide WorkerOk; hide KernelOk; hide GivenUp; hide QuietHalts;
    var s', a := Apply(sv, s, Invoke(w, r)), StepAttempt(r);
    var accepted := s.conns[c].accepted;
    SenderIsAlive(sv, s, w, c);
    PendingSend(sv, s, w, c);
    SendResult(sv, s, w, r, c);
    StreamAppend(sv.payload, t, |accepted|, accepted, a);
    OneMoreAttempt(t, a);
    if a.Halt? {
      GivesUp(sv, s, w, r, c);
    } else if GivenUp(s', c) {
      GivenUpBySend(sv, s, Invoke(w, r), c);
    }
  }

  /** The offset of the slot, and what is offered. */
  lemma PendingSend(sv: Server, s: State, w: nat, c: nat)
    requires Inv(sv, s) && c < |s.conns| && SendsTo(s, w, c)
    ensures var slot := s.workers[w].table[s.workers[w].pc.index];
            slot.sent == |s.conns[c].accepted| < |sv.payload| && s.conns[c].accepted == sv.payload[..slot.sent]
  {
    hide Holding; hide Interested; hide Batched;
    assert Good(sv, s, w);
    assert SlotTrue(sv, Mine(s.open, w), s.conns, s.workers[w].table[s.workers[w].pc.index]);
  }

  lemma SendResult(sv: Server, s: State, w: nat, r: Reply, c: nat)
    requires Shaped(s) && Enabled(sv, s, Invoke(w, r)) && c < |s.conns| && SendsTo(s, w, c)
    requires var slot := s.workers[w].table[s.workers[w].pc.index];
             slot.sent == |s.conns[c].accepted| < |sv.payload|
    ensures CanFollow(|sv.payload| - |s.conns[c].accepted|, StepAttempt(r))
    ensures var k, a := s.conns[c], StepAttempt(r);
            Apply(sv, s, Invoke(w, r)).conns[c].accepted ==
            if a.Took? then k.accepted + sv.payload[|k.accepted|..|k.accepted| + a.n] else k.accepted
  {
  }

  lemma OneMoreAttempt(t: seq<Attempt>, a: Attempt)
    requires NoHalt(t) && QuietHalts(t) && (a.Halt? ==> a.n == 0)
    ensures QuietHalts(t + [a]) && (NoHalt(t + [a]) <==> !a.Halt?)
  {
    assert (t + [a])[|t|] == a;
  }

  lemma GivesUp(sv: Server, s: State, w: nat, r: Reply, c: nat)
    requires Shaped(s) && Enabled(sv, s, Invoke(w, r)) && c < |s.conns| && SendsTo(s, w, c) && StepAttempt(r).Halt?
    ensures GivenUp(Apply(sv, s, Invoke(w, r)), c)
  {
    assert GivingUp(Apply(sv, s, Invoke(w, r)), w, c);
  }

  // ---------------------------------------------------------------------------
  // Runs
  // ---------------------------------------------------------------------------

  lemma StepExplains(sv: Server, s: State, a: Action, c: nat, t: seq<Attempt>)
    requires Inv(sv, s) && Enabled(sv, s, a) && c < |s.conns| && Explains(sv, s, c, t)
    ensures Explains(sv, Apply(sv, s, a), c, t + Attempted(s, a, c))
  {
    hide Fits; hide Deliver; hide Moved; hide NoHalt; hide WorkerOk; hide KernelOk; hide GivenUp; hide QuietHalts;
    hide KernelEffect; hide SendsTo;
    if a.Invoke? && SendsTo(s, a.w, c) {
      SendExplains(sv, s, a.w, a.r, c, t);
    } else {
      assert t + [] == t;
      AcceptedStays(sv, s, a, c);
      if GivenUp(s, c) {
        GivenUpStays(sv, s, a, c);
      } else if GivenUp(Apply(sv, s, a), c) {
        GivenUpBySend(sv, s, a, c);
      }
    }
  }

  lemma {:induction false} RunExplains(sv: Server, s: State, acts: seq<Action>, c: nat, t: seq<Attempt>)
    requires Inv(sv, s) && Run(sv, s, acts) && c < |s.conns| && Explains(sv, s, c, t)
    ensures Explains(sv, After(sv, s, acts), c, t + AttemptsOn(sv, s, acts, c))
    decreases acts
  {
    hide Explains; hide Attempted; hide KernelOk; hide Good; hide StreamOk;
    if acts == [] {
      assert t + [] == t;
    } else {
      var s', now := Apply(sv, s, acts[0]), Attempted(s, acts[0], c);
      StepExplains(sv, s, acts[0], c, t);
      StepKeeps(sv, s, acts[0]);
      RunExplains(sv, s', acts[1..], c, t + now);
      assert t + (now + AttemptsOn(sv, s', acts[1..], c)) == t + now + AttemptsOn(sv, s', acts[1..], c);
    }
  }

  /** In every run, for every interleaving of workers: what a connection was handed is what the
      abstract sender puts on its wire when its attempts are the `send` calls on that connection.
      The sender is complete exactly if that is the whole payload, and stopped exactly if the
      connection is given up after a failed send. */
  lemma {:induction false} ServerIsASender(sv: Server, s0: State, acts: seq<Action>, s: State, c: nat)
    requires Reaches(sv, s0, acts, s) && c < |s.conns|
    ensures var t := AttemptsOn(sv, s0, acts, c);
            && Fits(|sv.payload|, t)
            && var sent := Deliver(sv.payload, t);
               && sent.wire == s.conns[c].accepted
               && (sent.end == Complete <==> s.conns[c].accepted == sv.payload)
               && (sent.end == Stopped <==> GivenUp(s, c))
               && (s.conns[c].phase == Closed(Finished) ==> sent.end == Complete)
  {
    hide Fits; hide Deliver; hide Moved; hide NoHalt; hide WorkerOk; hide KernelOk; hide GivenUp; hide QuietHalts;
    hide AttemptsOn;
    InitInv(sv, s0);
    NobodyGivenUp(sv, s0, c);
    NoAttempts(sv.payload);
    RunExplains(sv, s0, acts, c, []);
    var t := AttemptsOn(sv, s0, acts, c);
    assert [] + t == t;
    WireIsPrefix(sv.payload, t);
    QuietSender(sv.payload, t);
    RunKeeps(sv, s0, acts);
    assert StreamOk(sv, s.conns[c]);
  }

  lemma NobodyGivenUp(sv: Server, s: State, c: nat)
    requires Init(sv, s) && c < |s.conns|
    ensures !GivenUp(s, c) && s.conns[c].accepted == []
  {
  }

  lemma NoAttempts(payload: seq<Byte>)
    ensures Underway(payload, [], 0, []) && QuietHalts([]) && NoHalt([])
  {
  }
}
