/** One worker of the epoll file server.

    `AcceptLoop` is the worker with the nested loops and early `continue`s of the server,
    run against the replies its system calls receive.  `Exec` is the same worker as an
    automaton that stops at every system call.  `AcceptLoop` is proved to make exactly the
    calls of `Exec`, so what is proved about the automaton, alone or next to other
    workers, holds of the nested loops.
 */
module WorkerLoop {
  import opened ClientTable

  /** What every worker is started with: the shared listening socket and the payload size. */
  datatype Config = Config(listenFd: Fd, size: nat)

  datatype Errno = EINTR | EAGAIN | OTHER

  /** One entry of the array that `epoll_wait` fills. */
  datatype Event = Event(fd: Fd, writable: bool, errorOrHangUp: bool)

  /** The outcome of a system call: the return value, errno, and the event array. */
  datatype Reply = Reply(ret: int, errno: Errno, events: seq<Event>)

  /** A call that returns `n`. */
  function Ret(n: int): Reply {
    Reply(n, OTHER, [])
  }

  datatype Call =
    | EpollCreate
    | EpollAdd(epollFd: Fd, fd: Fd)
    | EpollDelete(epollFd: Fd, fd: Fd)
    | EpollWait(epollFd: Fd)
    | Accept(listenFd: Fd)
    | SetNonblocking(fd: Fd)
    | Send(fd: Fd, offset: nat, length: nat)
    | Close(fd: Fd)

  /** Why a client connection is closed. */
  datatype Reason = Finished | SendFailed | HangUp | SetupFailed | Shutdown

  /** Where a worker is.  Apart from `Dispatching` and `Exited`, each place is just before
      a system call; everything a worker does between two calls is local to it. */
  datatype Pc =
    | Starting                            // epoll_create1
    | Subscribing                         // epoll_ctl(ADD, listen_fd)
    | Waiting                             // epoll_wait
    | Dispatching                         // head of the loop over the batch
    | Accepting                           // accept
    | Configuring(fd: Fd)                 // set_nonblocking on an accepted descriptor
    | Registering(fd: Fd)                 // epoll_ctl(ADD) of an accepted descriptor
    | Dropping(fd: Fd)                    // close of an accepted descriptor
    | Sending(index: nat)                 // send
    | Deleting(index: nat, why: Reason)   // epoll_ctl(DEL) in remove_client
    | Closing(index: nat, why: Reason)    // close in remove_client
    | Cleaning(index: nat)                // close in the final loop
    | ClosingEpoll                        // close of the epoll descriptor
    | Exited

  datatype Worker = Worker(pc: Pc, epollFd: Fd, table: seq<Slot>, batch: seq<Event>, pos: nat) {
    predicate WellFormed() {
      && |table| <= MAX_CLIENTS_PER_WORKER
      && (pc.Accepting? || pc.Configuring? || pc.Registering? || pc.Dropping? ==> |table| < MAX_CLIENTS_PER_WORKER)
      && (pc.Sending? || pc.Deleting? || pc.Closing? || pc.Cleaning? ==> pc.index < |table|)
    }

    predicate AtCall() {
      !pc.Dispatching? && !pc.Exited?
    }
  }

  const NEW_WORKER := Worker(Starting, -1, [], [], 0)

  // ---------------------------------------------------------------------------
  // The automaton
  // ---------------------------------------------------------------------------

  function Request(cfg: Config, w: Worker): Call
    requires w.WellFormed() && w.AtCall()
  {
    match w.pc
    case Starting => EpollCreate
    case Subscribing => EpollAdd(w.epollFd, cfg.listenFd)
    case Waiting => EpollWait(w.epollFd)
    case Accepting => Accept(cfg.listenFd)
    case Configuring(fd) => SetNonblocking(fd)
    case Registering(fd) => EpollAdd(w.epollFd, fd)
    case Dropping(fd) => Close(fd)
    case Sending(i) =>
      var slot := w.table[i];
      Send(slot.fd, slot.sent, if slot.sent <= cfg.size then cfg.size - slot.sent else 0)
    case Deleting(i, _) => EpollDelete(w.epollFd, w.table[i].fd)
    case Closing(i, _) => Close(w.table[i].fd)
    case Cleaning(i) => Close(w.table[i].fd)
    case ClosingEpoll => Close(w.epollFd)
  }

  /** On to the next event of the batch. */
  function NextEvent(w: Worker): Worker {
    w.(pc := Dispatching, pos := w.pos + 1)
  }

  /** Head of the accept loop: it runs only while the table has a free slot. */
  function AcceptHead(w: Worker): Worker {
    if |w.table| < MAX_CLIENTS_PER_WORKER then w.(pc := Accepting) else NextEvent(w)
  }

  /** Head of the final loop that closes every client. */
  function CleanHead(w: Worker, i: nat): Worker {
    w.(pc := if i < |w.table| then Cleaning(i) else ClosingEpoll)
  }

  /** The local step at the head of the loop over the batch. */
  function Dispatch(cfg: Config, w: Worker): (w': Worker)
    requires w.WellFormed() && w.pc.Dispatching?
    ensures w'.WellFormed()
    ensures w'.pc.Dispatching? ==> w'.pos == w.pos + 1 <= |w.batch| == |w'.batch|
  {
    if w.pos >= |w.batch| then w.(pc := Waiting)
    else
      var e := w.batch[w.pos];
      var i := Find(w.table, e.fd);
      if e.fd == cfg.listenFd then AcceptHead(w)
      else if i == |w.table| then NextEvent(w)
      else if e.errorOrHangUp then w.(pc := Deleting(i, HangUp))
      else if !e.writable then NextEvent(w)
      else if w.table[i].sent >= cfg.size then w.(pc := Deleting(i, Finished))
      else w.(pc := Sending(i))
  }

  /** The status of one send step: 1 all sent, 0 try again later, -1 error or closed. */
  function SendStatus(sent: nat, size: nat, r: Reply): int {
    if r.ret > 0 then (if sent + r.ret == size then 1 else 0)
    else if r.ret == 0 then -1
    else if r.errno == EINTR || r.errno == EAGAIN then 0
    else -1
  }

  /** Stores the new offset of slot `i` and goes on as `status` says. */
  function AfterSend(w: Worker, i: nat, status: int, newSent: nat): (w': Worker)
    requires w.WellFormed() && i < |w.table|
    ensures w'.WellFormed()
  {
    var w1 := w.(table := SetSent(w.table, i, newSent));
    if status == 1 then w1.(pc := Deleting(i, Finished))
    else if status == -1 then w1.(pc := Deleting(i, SendFailed))
    else NextEvent(w1)
  }

  /** What a worker does with the reply of its pending call, up to the next place. */
  function OnReply(cfg: Config, w: Worker, r: Reply): (w': Worker)
    requires w.WellFormed() && w.AtCall()
    ensures w'.WellFormed()
  {
    match w.pc
    case Starting => if r.ret == -1 then w.(pc := Exited) else w.(pc := Subscribing, epollFd := r.ret)
    case Subscribing => if r.ret == -1 then w.(pc := ClosingEpoll) else w.(pc := Waiting)
    case Waiting =>
      if r.ret != -1 then w.(pc := Dispatching, batch := r.events, pos := 0)
      else if r.errno == EINTR then w
      else CleanHead(w, 0)
    case Accepting =>
      if r.ret != -1 then w.(pc := Configuring(r.ret))
      else if r.errno == EINTR then w
      else NextEvent(w)
    case Configuring(fd) => if r.ret == -1 then w.(pc := Dropping(fd)) else w.(pc := Registering(fd))
    case Registering(fd) =>
      if r.ret == -1 then w.(pc := Dropping(fd))
      else AcceptHead(w.(table := Insert(w.table, fd)))
    case Dropping(_) => AcceptHead(w)
    case Sending(i) =>
      var sent := w.table[i].sent;
      AfterSend(w, i, SendStatus(sent, cfg.size, r), if r.ret > 0 then sent + r.ret else sent)
    case Deleting(i, why) => w.(pc := Closing(i, why))
    case Closing(i, _) => NextEvent(w.(table := RemoveAt(w.table, i)))
    case Cleaning(i) => CleanHead(w, i + 1)
    case ClosingEpoll => w.(pc := Exited)
  }

  datatype Outcome = Outcome(worker: Worker, calls: seq<Call>)

  /** Runs the automaton until it exits or the replies are used up. */
  ghost function Exec(cfg: Config, w: Worker, replies: seq<Reply>): Outcome
    requires w.WellFormed()
    decreases |replies|, if !w.pc.Dispatching? then 0 else if w.pos < |w.batch| then |w.batch| - w.pos + 1 else 1
  {
    if w.pc.Dispatching? then Exec(cfg, Dispatch(cfg, w), replies)
    else if w.pc.Exited? || replies == [] then Outcome(w, [])
    else
      var rest := Exec(cfg, OnReply(cfg, w, replies[0]), replies[1..]);
      Outcome(rest.worker, [Request(cfg, w)] + rest.calls)
  }

  // ---------------------------------------------------------------------------
  // The nested loops
  // ---------------------------------------------------------------------------

  /** What a run comes to that has made `calls` and goes on from `w`. */
  ghost function Continue(cfg: Config, calls: seq<Call>, w: Worker, rest: seq<Reply>): Outcome
    requires w.WellFormed()
  {
    var o := Exec(cfg, w, rest);
    Outcome(o.worker, calls + o.calls)
  }

  /** After `calls`, with the automaton at `w` and `rest` to come, the whole run is `total`. */
  ghost predicate OnTrack(cfg: Config, total: Outcome, calls: seq<Call>, w: Worker, rest: seq<Reply>) {
    w.WellFormed() && total == Continue(cfg, calls, w, rest)
  }

  /** The boundary to the kernel: hands out the replies in order and records the calls.
      The ghost fields follow the automaton along. */
  class SystemCalls {
    const replies: seq<Reply>
    var next: nat
    var calls: seq<Call>
    ghost const cfg: Config
    ghost var worker: Worker

    ghost predicate Valid()
      reads this
    {
      next <= |replies| && OnTrack(cfg, Exec(cfg, NEW_WORKER, replies), calls, worker, replies[next..])
    }

    constructor (ghost cfg: Config, replies: seq<Reply>)
      ensures Valid() && this.cfg == cfg && this.replies == replies && worker == NEW_WORKER
    {
      this.cfg := cfg;
      this.replies := replies;
      next, calls, worker := 0, [], NEW_WORKER;
      new;
      assert replies[next..] == replies;
      assert [] + Exec(cfg, NEW_WORKER, replies).calls == Exec(cfg, NEW_WORKER, replies).calls;
    }

    /** One system call; `ok` is false when the worker is still inside it. */
    method Invoke(call: Call) returns (ok: bool, r: Reply)
      requires Valid() && worker.AtCall() && call == Request(cfg, worker)
      modifies this
      ensures Valid()
      ensures ok ==> worker == OnReply(cfg, old(worker), r) && next == old(next) + 1
      ensures !ok ==> Exec(cfg, NEW_WORKER, replies) == Outcome(worker, calls) && worker == old(worker)
    {
      if next == |replies| {
        assert calls + [] == calls;
        return false, Reply(-1, OTHER, []);
      }
      ok, r := true, replies[next];
      ghost var after := Exec(cfg, OnReply(cfg, worker, r), replies[next + 1..]);
      assert replies[next..][1..] == replies[next + 1..];
      assert calls + ([call] + after.calls) == calls + [call] + after.calls;
      calls := calls + [call];
      worker := OnReply(cfg, worker, r);
      next := next + 1;
    }

    /** The local step at the head of the loop over a batch. */
    ghost method Branch()
      requires Valid() && worker.pc.Dispatching?
      modifies this`worker
      ensures Valid() && worker == Dispatch(cfg, old(worker))
    {
      worker := Dispatch(cfg, worker);
    }

    lemma Ended()
      requires Valid() && worker.pc.Exited?
      ensures Exec(cfg, NEW_WORKER, replies) == Outcome(worker, calls)
    {
    }
  }

  method SendFileStep(sys: SystemCalls, fd: Fd, sent: nat, size: nat) returns (ok: bool, status: int, newSent: nat)
    requires sys.Valid() && sys.cfg.size == size && sys.worker.WellFormed()
    requires sent < size ==> sys.worker.pc.Sending? && sys.worker.table[sys.worker.pc.index] == Slot(fd, sent)
    modifies sys
    ensures sys.Valid() && sys.next >= old(sys.next)
    ensures sent >= size ==>
        ok && status == 1 && newSent == sent && sys.worker == old(sys.worker) && sys.calls == old(sys.calls)
    ensures !ok ==>
        Exec(sys.cfg, NEW_WORKER, sys.replies) == Outcome(sys.worker, sys.calls) && sys.worker == old(sys.worker)
    ensures ok && sent < size ==> sys.worker == AfterSend(old(sys.worker), old(sys.worker).pc.index, status, newSent)
  {
    newSent := sent;
    if sent >= size {
      return true, 1, newSent;
    }
    var r;
    ok, r := sys.Invoke(Send(fd, sent, size - sent));
    if !ok {
      return false, 0, newSent;
    }
    if r.ret > 0 {
      newSent := sent + r.ret;
      status := if newSent == size then 1 else 0;
    } else if r.ret == 0 {
      status := -1;
    } else if r.errno == EINTR || r.errno == EAGAIN {
      status := 0;
    } else {
      status := -1;
    }
  }

  /** The automaton is at `pc`, with this epoll descriptor and the table that the arrays hold. */
  ghost predicate At(sys: SystemCalls, epollFd: Fd, fds: array<Fd>, sent: array<nat>, count: nat)
    requires count <= fds.Length == sent.Length
    reads sys, fds, sent
  {
    && sys.Valid()
    && sys.worker.epollFd == epollFd
    && sys.worker.table == Slots(fds, sent, count)
    && Cleared(fds, sent, count)
  }

  /** The worker thread.  It returns when it leaves its loop, or when the replies end. */
  method AcceptLoop(cfg: Config, replies: seq<Reply>) returns (calls: seq<Call>, exited: bool)
    ensures calls == Exec(cfg, NEW_WORKER, replies).calls
    ensures exited <==> Exec(cfg, NEW_WORKER, replies).worker.pc.Exited?
  {
    hide Exec;
    var fds := new Fd[MAX_CLIENTS_PER_WORKER](_ => -1);
    var sent := new nat[MAX_CLIENTS_PER_WORKER](_ => 0);
    var count: nat := 0;
    var sys := new SystemCalls(cfg, replies);

    var ok, epollFd := OpenEpoll(sys, cfg.listenFd);
    if !ok { return sys.calls, epollFd == -1; }

    var r;
    while true
      invariant count <= MAX_CLIENTS_PER_WORKER
      invariant At(sys, epollFd, fds, sent, count) && sys.worker.pc.Waiting?
      invariant fresh(sys) && fresh(fds) && fresh(sent) && sys.cfg == cfg && sys.replies == replies
      decreases |replies| - sys.next
    {
      ok, r := sys.Invoke(EpollWait(epollFd));
      if !ok { return sys.calls, false; }
      if r.ret == -1 {
        if r.errno == EINTR { continue; }
        break;
      }
      ok, count := RunBatch(sys, cfg, epollFd, fds, sent, count, r.events);
      if !ok { return sys.calls, false; }
    }

    ok := CloseAll(sys, epollFd, fds, sent, count);
    return sys.calls, ok;
  }

  /** The two calls before the main loop.  When they fail the worker has returned, which
      `epollFd` of -1 says, or is still inside a call. */
  method OpenEpoll(sys: SystemCalls, listenFd: Fd) returns (ok: bool, epollFd: Fd)
    requires sys.Valid() && sys.worker == NEW_WORKER && listenFd == sys.cfg.listenFd
    modifies sys
    ensures sys.Valid()
    ensures ok ==> sys.worker == NEW_WORKER.(pc := Waiting, epollFd := epollFd)
    ensures !ok ==> Exec(sys.cfg, NEW_WORKER, sys.replies) == Outcome(sys.worker, sys.calls)
    ensures !ok ==> (epollFd == -1 <==> sys.worker.pc.Exited?)
  {
    hide Exec;
    var r;
    ok, r := sys.Invoke(EpollCreate);
    if !ok { return false, 0; }
    if r.ret == -1 { sys.Ended(); return false, -1; }
    epollFd := r.ret;

    ok, r := sys.Invoke(EpollAdd(epollFd, listenFd));
    if !ok { return false, 0; }
    if r.ret == -1 {
      ok, r := sys.Invoke(Close(epollFd));
      if !ok { return false, 0; }
      sys.Ended();
      return false, -1;
    }
  }

  /** The loop over one batch of events. */
  method RunBatch(sys: SystemCalls, cfg: Config, epollFd: Fd, fds: array<Fd>, sent: array<nat>, count0: nat,
                  events: seq<Event>)
    returns (ok: bool, count: nat)
    requires count0 <= MAX_CLIENTS_PER_WORKER == fds.Length == sent.Length
    requires At(sys, epollFd, fds, sent, count0) && sys.worker.pc.Dispatching? && sys.cfg == cfg
    requires sys.worker.batch == events && sys.worker.pos == 0
    modifies sys, fds, sent
    ensures count <= MAX_CLIENTS_PER_WORKER
    ensures !ok ==> Exec(cfg, NEW_WORKER, sys.replies) == Outcome(sys.worker, sys.calls) && !sys.worker.pc.Exited?
    ensures ok ==> At(sys, epollFd, fds, sent, count) && sys.worker.pc.Waiting? && sys.next >= old(sys.next)
  {
    hide Exec;
    ok, count := true, count0;
    var eventIndex := 0;
    while eventIndex < |events|
      invariant count <= MAX_CLIENTS_PER_WORKER && eventIndex <= |events|
      invariant At(sys, epollFd, fds, sent, count) && sys.worker.pc.Dispatching?
      invariant sys.worker.batch == events && sys.worker.pos == eventIndex
      invariant sys.next >= old(sys.next)
    {
      var e := events[eventIndex];
      ghost var head := sys.worker;
      sys.Branch();
      if e.fd == cfg.listenFd {
        ok, count := AcceptBurst(sys, cfg.listenFd, epollFd, head, fds, sent, count);
      } else {
        ok, count := ServeClient(sys, epollFd, head, fds, sent, count, e, cfg.size);
      }
      if !ok { return; }
      eventIndex := eventIndex + 1;
    }
    sys.Branch();
  }

  /** The closing of every client and of the epoll descriptor when the loop is left. */
  method CloseAll(sys: SystemCalls, epollFd: Fd, fds: array<Fd>, sent: array<nat>, count: nat) returns (ok: bool)
    requires count <= MAX_CLIENTS_PER_WORKER == fds.Length == sent.Length
    requires At(sys, epollFd, fds, sent, count) && sys.worker == CleanHead(sys.worker, 0)
    modifies sys
    ensures Exec(sys.cfg, NEW_WORKER, sys.replies) == Outcome(sys.worker, sys.calls)
    ensures ok <==> sys.worker.pc.Exited?
  {
    hide Exec;
    var r;
    var i := 0;
    while i < count
      invariant i <= count
      invariant At(sys, epollFd, fds, sent, count) && sys.worker == CleanHead(sys.worker, i)
    {
      ok, r := sys.Invoke(Close(fds[i]));
      if !ok { return; }
      i := i + 1;
    }
    ok, r := sys.Invoke(Close(epollFd));
    if !ok { return; }
    sys.Ended();
  }

  /** A batch entry that is not the listener's. */
  method ServeClient(sys: SystemCalls, epollFd: Fd, ghost head: Worker, fds: array<Fd>, sent: array<nat>, count0: nat,
                     e: Event, size: nat)
    returns (ok: bool, count: nat)
    requires count0 <= MAX_CLIENTS_PER_WORKER == fds.Length == sent.Length
    requires At(sys, epollFd, fds, sent, count0) && sys.cfg.size == size
    requires head.WellFormed() && head.pc.Dispatching? && sys.worker == Dispatch(sys.cfg, head)
    requires head.pos < |head.batch| && head.batch[head.pos] == e && e.fd != sys.cfg.listenFd
    modifies sys, fds, sent
    ensures count <= MAX_CLIENTS_PER_WORKER
    ensures !ok ==> Exec(sys.cfg, NEW_WORKER, sys.replies) == Outcome(sys.worker, sys.calls) && !sys.worker.pc.Exited?
    ensures ok ==> At(sys, epollFd, fds, sent, count) && sys.worker.pc.Dispatching?
    ensures ok ==> sys.worker.batch == head.batch && sys.worker.pos == head.pos + 1 && sys.next >= old(sys.next)
  {
    hide Exec;
    count := count0;
    ok := true;
    var index := FindClientIndex(fds, sent, count, e.fd);
    if index == count { return; }
    if e.errorOrHangUp {
      ok, count := RemoveClientAndClose(sys, epollFd, fds, sent, count, index);
      return;
    }
    if e.writable {
      ok, count := ServeWritable(sys, epollFd, fds, sent, count, index, size);
    }
  }

  /** One send step for the client in slot `index`, and its removal when it is done with. */
  method ServeWritable(sys: SystemCalls, epollFd: Fd, fds: array<Fd>, sent: array<nat>, count0: nat, index: nat,
                       size: nat)
    returns (ok: bool, count: nat)
    requires index < count0 <= MAX_CLIENTS_PER_WORKER == fds.Length == sent.Length
    requires At(sys, epollFd, fds, sent, count0) && sys.cfg.size == size
    requires sys.worker.pc == if sent[index] >= size then Deleting(index, Finished) else Sending(index)
    modifies sys, fds, sent
    ensures count <= MAX_CLIENTS_PER_WORKER
    ensures !ok ==> Exec(sys.cfg, NEW_WORKER, sys.replies) == Outcome(sys.worker, sys.calls) && !sys.worker.pc.Exited?
    ensures ok ==> At(sys, epollFd, fds, sent, count) && sys.worker.pc.Dispatching?
    ensures ok ==> sys.worker.batch == old(sys.worker.batch) && sys.worker.pos == old(sys.worker.pos) + 1
    ensures ok ==> sys.next >= old(sys.next)
  {
    hide Exec;
    count := count0;
    ghost var before := Slots(fds, sent, count);
    var status, newSent;
    ok, status, newSent := SendFileStep(sys, fds[index], sent[index], size);
    if !ok { return; }
    sent[index] := newSent;
    assert Slots(fds, sent, count) == SetSent(before, index, newSent);
    if status == 1 || status == -1 {
      ok, count := RemoveClientAndClose(sys, epollFd, fds, sent, count, index);
    }
  }

  /** The inner loop of the listener branch. */
  method AcceptBurst(sys: SystemCalls, listenFd: Fd, epollFd: Fd, ghost head: Worker, fds: array<Fd>, sent: array<nat>,
                     count0: nat)
    returns (ok: bool, count: nat)
    requires count0 <= MAX_CLIENTS_PER_WORKER == fds.Length == sent.Length
    requires At(sys, epollFd, fds, sent, count0) && listenFd == sys.cfg.listenFd
    requires head.pc.Dispatching? && sys.worker == AcceptHead(head)
    modifies sys, fds, sent
    ensures count <= MAX_CLIENTS_PER_WORKER
    ensures !ok ==> Exec(sys.cfg, NEW_WORKER, sys.replies) == Outcome(sys.worker, sys.calls) && !sys.worker.pc.Exited?
    ensures ok ==> At(sys, epollFd, fds, sent, count) && sys.worker.pc.Dispatching?
    ensures ok ==> sys.worker.batch == head.batch && sys.worker.pos == head.pos + 1 && sys.next >= old(sys.next)
  {
    hide Exec;
    count := count0;
    ok := true;
    while count < MAX_CLIENTS_PER_WORKER
      invariant count <= MAX_CLIENTS_PER_WORKER
      invariant At(sys, epollFd, fds, sent, count)
      invariant sys.worker.batch == head.batch && ok && sys.next >= old(sys.next)
      invariant count < MAX_CLIENTS_PER_WORKER ==> sys.worker.pc.Accepting? && sys.worker.pos == head.pos
      invariant count == MAX_CLIENTS_PER_WORKER ==> sys.worker.pc.Dispatching? && sys.worker.pos == head.pos + 1
      decreases |sys.replies| - sys.next
    {
      var r;
      ok, r := sys.Invoke(Accept(listenFd));
      if !ok { return; }
      if r.ret == -1 {
        if r.errno == EINTR { continue; }
        break;
      }
      ok, count := AdmitClient(sys, epollFd, head, fds, sent, count, r.ret);
      if !ok { return; }
    }
  }

  /** Makes an accepted descriptor non-blocking, registers it and gives it a slot, or closes it. */
  method AdmitClient(sys: SystemCalls, epollFd: Fd, ghost head: Worker, fds: array<Fd>, sent: array<nat>, count0: nat,
                     clientFd: Fd)
    returns (ok: bool, count: nat)
    requires count0 < MAX_CLIENTS_PER_WORKER == fds.Length == sent.Length
    requires At(sys, epollFd, fds, sent, count0) && sys.worker.pc == Configuring(clientFd)
    requires sys.worker.batch == head.batch && sys.worker.pos == head.pos
    modifies sys, fds, sent
    ensures count <= MAX_CLIENTS_PER_WORKER
    ensures !ok ==> Exec(sys.cfg, NEW_WORKER, sys.replies) == Outcome(sys.worker, sys.calls) && !sys.worker.pc.Exited?
    ensures ok ==> At(sys, epollFd, fds, sent, count)
    ensures ok ==> sys.worker == AcceptHead(sys.worker.(pc := Dispatching, pos := head.pos))
    ensures ok ==> sys.worker.batch == head.batch && sys.next >= old(sys.next)
  {
    hide Exec;
    count := count0;
    var r;
    ok, r := sys.Invoke(SetNonblocking(clientFd));
    if !ok { return; }
    if r.ret != -1 {
      ok, r := sys.Invoke(EpollAdd(epollFd, clientFd));
      if !ok { return; }
    }
    if r.ret == -1 {
      ok, r := sys.Invoke(Close(clientFd));
      return;
    }
    count := AddClient(fds, sent, count, clientFd);
  }

  /** `remove_client` with its two system calls. */
  method RemoveClientAndClose(sys: SystemCalls, epollFd: Fd, fds: array<Fd>, sent: array<nat>, count0: nat, index: nat)
    returns (ok: bool, count: nat)
    requires index < count0 <= MAX_CLIENTS_PER_WORKER == fds.Length == sent.Length
    requires At(sys, epollFd, fds, sent, count0) && sys.worker.pc.Deleting? && sys.worker.pc.index == index
    modifies sys, fds, sent
    ensures count <= count0
    ensures !ok ==> Exec(sys.cfg, NEW_WORKER, sys.replies) == Outcome(sys.worker, sys.calls) && !sys.worker.pc.Exited?
    ensures ok ==> At(sys, epollFd, fds, sent, count) && sys.next >= old(sys.next)
    ensures ok ==> sys.worker == NextEvent(old(sys.worker)).(table := RemoveAt(old(sys.worker.table), index))
  {
    count := count0;
    var fd := fds[index];
    var r;
    ok, r := sys.Invoke(EpollDelete(epollFd, fd));
    if !ok { return; }
    ok, r := sys.Invoke(Close(fd));
    if !ok { return; }
    count := RemoveClient(fds, sent, count, index);
  }
}
