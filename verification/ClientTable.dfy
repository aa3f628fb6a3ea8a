/** The per-worker client table of the epoll file server.

    A worker keeps two parallel arrays of fixed length, one of descriptors and one of
    byte offsets, and the number of slots in use.  This module gives the table as a
    sequence of slots, the abstract map from descriptor to offset, and the functions on
    the two arrays that the server runs.
 */
module ClientTable {

  type Fd = int

  const MAX_CLIENTS_PER_WORKER: nat := 256

  datatype Slot = Slot(fd: Fd, sent: nat)

  ghost predicate Distinct(t: seq<Slot>) {
    forall i, j :: 0 <= i < j < |t| ==> t[i].fd != t[j].fd
  }

  predicate Holds(t: seq<Slot>, fd: Fd) {
    exists i :: 0 <= i < |t| && t[i].fd == fd
  }

  /** The table as the map it stands for. */
  ghost function AsMap(t: seq<Slot>): map<Fd, nat>
    requires Distinct(t)
  {
    map i | 0 <= i < |t| :: t[i].fd := t[i].sent
  }

  /** Index of the first slot of `fd`, or the length of the table. */
  function Find(t: seq<Slot>, fd: Fd): (index: nat)
    ensures index <= |t|
    ensures forall j :: 0 <= j < index ==> t[j].fd != fd
    ensures index < |t| ==> t[index].fd == fd
  {
    if t == [] then 0
    else if t[0].fd == fd then 0
    else 1 + Find(t[1..], fd)
  }

  /** Swap-with-last removal: the last slot moves into the hole and the table shrinks. */
  function RemoveAt(t: seq<Slot>, index: nat): (r: seq<Slot>)
    requires index < |t|
    ensures |r| == |t| - 1
    ensures forall j :: 0 <= j < |r| ==> r[j] == if j == index then t[|t| - 1] else t[j]
  {
    t[index := t[|t| - 1]][..|t| - 1]
  }

  function Insert(t: seq<Slot>, fd: Fd): seq<Slot> {
    t + [Slot(fd, 0)]
  }

  function SetSent(t: seq<Slot>, index: nat, sent: nat): seq<Slot>
    requires index < |t|
  {
    t[index := Slot(t[index].fd, sent)]
  }

  // ---------------------------------------------------------------------------
  // The table refines a map
  // ---------------------------------------------------------------------------

  lemma FindIsLookup(t: seq<Slot>, fd: Fd)
    requires Distinct(t)
    ensures Find(t, fd) < |t| <==> fd in AsMap(t)
    ensures fd in AsMap(t) ==> AsMap(t)[fd] == t[Find(t, fd)].sent
  {
  }

  lemma RemovedKey(t: seq<Slot>, index: nat, fd: Fd)
    requires Distinct(t) && index < |t|
    ensures Distinct(RemoveAt(t, index))
    ensures fd in AsMap(RemoveAt(t, index)) <==> fd in AsMap(t) && fd != t[index].fd
    ensures fd in AsMap(RemoveAt(t, index)) ==> AsMap(RemoveAt(t, index))[fd] == AsMap(t)[fd]
  {
    var r, last := RemoveAt(t, index), |t| - 1;
    if fd in AsMap(t) && fd != t[index].fd {
      var i :| 0 <= i < |t| && t[i].fd == fd;
      assert r[if i == last then index else i] == t[i];
    }
  }

  lemma RemoveAtIsMapDeletion(t: seq<Slot>, index: nat)
    requires Distinct(t) && index < |t|
    ensures Distinct(RemoveAt(t, index))
    ensures AsMap(RemoveAt(t, index)) == AsMap(t) - {t[index].fd}
  {
    var r := RemoveAt(t, index);
    forall fd
      ensures fd in AsMap(r) <==> fd in AsMap(t) && fd != t[index].fd
      ensures fd in AsMap(r) ==> AsMap(r)[fd] == AsMap(t)[fd]
    {
      RemovedKey(t, index, fd);
    }
  }

  lemma InsertIsMapInsertion(t: seq<Slot>, fd: Fd)
    requires Distinct(t) && !Holds(t, fd)
    ensures Distinct(Insert(t, fd))
    ensures AsMap(Insert(t, fd)) == AsMap(t)[fd := 0]
  {
    var r := Insert(t, fd);
    assert r[|t|] == Slot(fd, 0);
    assert fd in AsMap(r);
    forall g | g in AsMap(t)
      ensures g in AsMap(r)
    {
      var i :| 0 <= i < |t| && t[i].fd == g;
      assert r[i].fd == g;
    }
  }

  lemma SetSentIsMapUpdate(t: seq<Slot>, index: nat, sent: nat)
    requires Distinct(t) && index < |t|
    ensures Distinct(SetSent(t, index, sent))
    ensures AsMap(SetSent(t, index, sent)) == AsMap(t)[t[index].fd := sent]
  {
    var r := SetSent(t, index, sent);
    assert r[index] == Slot(t[index].fd, sent);
    forall g
      ensures g in AsMap(r) <==> g in AsMap(t)
    {
      if i :| 0 <= i < |t| && t[i].fd == g { assert r[i].fd == g; }
    }
  }

  // ---------------------------------------------------------------------------
  // The two arrays
  // ---------------------------------------------------------------------------

  /** The slots in use. */
  ghost function Slots(fds: array<Fd>, sent: array<nat>, count: nat): (t: seq<Slot>)
    reads fds, sent
    requires count <= fds.Length && count <= sent.Length
    ensures |t| == count
    ensures forall i :: 0 <= i < count ==> t[i] == Slot(fds[i], sent[i])
  {
    seq(count, i requires 0 <= i < count && count <= fds.Length && count <= sent.Length reads fds, sent =>
          Slot(fds[i], sent[i]))
  }

  /** Slots that are not in use hold (-1, 0). */
  ghost predicate Cleared(fds: array<Fd>, sent: array<nat>, count: nat)
    reads fds, sent
    requires fds.Length == sent.Length
  {
    forall i :: count <= i < fds.Length ==> fds[i] == -1 && sent[i] == 0
  }

  method FindClientIndex(fds: array<Fd>, ghost sent: array<nat>, count: nat, fd: Fd) returns (index: nat)
    requires count <= fds.Length == sent.Length
    ensures index == Find(Slots(fds, sent, count), fd)
  {
    ghost var t := Slots(fds, sent, count);
    index := 0;
    while index < count
      invariant index <= count
      invariant forall j :: 0 <= j < index ==> fds[j] != fd
    {
      if fds[index] == fd {
        FirstIndex(t, fd, index);
        return;
      }
      index := index + 1;
    }
    FirstIndex(t, fd, index);
  }

  lemma FirstIndex(t: seq<Slot>, fd: Fd, index: nat)
    requires index <= |t|
    requires forall j :: 0 <= j < index ==> t[j].fd != fd
    requires index < |t| ==> t[index].fd == fd
    ensures index == Find(t, fd)
  {
  }

  method RemoveClient(fds: array<Fd>, sent: array<nat>, count: nat, index: nat) returns (newCount: nat)
    requires index < count <= fds.Length == sent.Length
    modifies fds, sent
    ensures newCount == count - 1
    ensures Slots(fds, sent, newCount) == RemoveAt(old(Slots(fds, sent, count)), index)
    ensures old(Cleared(fds, sent, count)) ==> Cleared(fds, sent, newCount)
  {
    if index + 1 != count {
      fds[index] := fds[count - 1];
      sent[index] := sent[count - 1];
    }
    fds[count - 1] := -1;
    sent[count - 1] := 0;
    newCount := count - 1;
  }

  method AddClient(fds: array<Fd>, sent: array<nat>, count: nat, fd: Fd) returns (newCount: nat)
    requires count < fds.Length == sent.Length
    modifies fds, sent
    ensures newCount == count + 1
    ensures Slots(fds, sent, newCount) == Insert(old(Slots(fds, sent, count)), fd)
    ensures old(Cleared(fds, sent, count)) ==> Cleared(fds, sent, newCount)
  {
    fds[count] := fd;
    sent[count] := 0;
    newCount := count + 1;
  }
}
