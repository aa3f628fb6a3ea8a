/** How the scripts count what one benchmark case downloaded. */
module Accounting {
  import opened Statistics
  import opened Orders
  import opened Grouping
  import opened FileServer
  import opened Receivers
  import opened EnergyCounter
  import opened Senders
  import Campaign
  import ServerTheorems
  import Delivery

  /** One element of the list `benchmarks` of a report. */
  datatype Entry = Entry(errorOccurred: bool, runType: Option<string>, iterations: int, downloadedBytes: Option<real>)

  /** The report of one benchmark process: it may not exist, or not parse. */
  datatype Report = Missing | Unreadable | Readable(entries: seq<Entry>)

  const ITERATION := "iteration"

  /** Python's `int` of a float. */
  function Truncate(x: real): int {
    if x >= 0.0 then x.Floor else -((-x).Floor)
  }

  function Total(f: Entry -> int, entries: seq<Entry>): int {
    if entries == [] then 0 else Total(f, entries[..|entries| - 1]) + f(entries[|entries| - 1])
  }

  const ITERATIONS: Entry -> int := (e: Entry) => if e.runType == Some(ITERATION) then e.iterations else 0

  predicate Counts(e: Entry) {
    e.runType.None? || e.runType == Some(ITERATION)
  }

  const ALL_ITERATIONS: Entry -> int := (e: Entry) => if Counts(e) then e.iterations else 0
  const ALL_BYTES: Entry -> int := (e: Entry) =>
    if Counts(e) && e.downloadedBytes.Some? then Truncate(e.downloadedBytes.value) else 0

  ghost predicate Clean(r: Report) {
    r.Readable? && forall i :: 0 <= i < |r.entries| ==> !r.entries[i].errorOccurred
  }

  ghost predicate Valid(r: Report) {
    Clean(r) && Total(ITERATIONS, r.entries) > 0
  }

  ghost predicate ValidAsync(r: Report) {
    Clean(r) && (Total(ALL_ITERATIONS, r.entries) > 0 || Total(ALL_BYTES, r.entries) > 0)
  }

  /** `parse_benchmark_json` of all libraries but one. */
  method ParseBenchmarkJson(r: Report) returns (valid: bool, iterations: int)
    ensures valid <==> Valid(r)
    ensures iterations == if valid then Total(ITERATIONS, r.entries) else 0
  {
    if !r.Readable? { return false, 0; }
    iterations := 0;
    for i := 0 to |r.entries|
      invariant forall j :: 0 <= j < i ==> !r.entries[j].errorOccurred
      invariant iterations == Total(ITERATIONS, r.entries[..i])
    {
      var e := r.entries[i];
      if e.errorOccurred { return false, 0; }
      assert r.entries[..i + 1][..i] == r.entries[..i];
      if e.runType == Some(ITERATION) {
        iterations := iterations + e.iterations;
      }
    }
    assert r.entries[..|r.entries|] == r.entries;
    if iterations <= 0 { return false, 0; }
    return true, iterations;
  }

  /** `parse_benchmark_json` of async-berkeley: it counts entries without a run type as well,
      and the bytes. */
  method ParseBenchmarkJsonAsync(r: Report) returns (valid: bool, iterations: int, bytes: int)
    ensures valid <==> ValidAsync(r)
    ensures iterations == if valid then Total(ALL_ITERATIONS, r.entries) else 0
    ensures bytes == if valid then Total(ALL_BYTES, r.entries) else 0
  {
    if !r.Readable? { return false, 0, 0; }
    iterations, bytes := 0, 0;
    for i := 0 to |r.entries|
      invariant forall j :: 0 <= j < i ==> !r.entries[j].errorOccurred
      invariant iterations == Total(ALL_ITERATIONS, r.entries[..i])
      invariant bytes == Total(ALL_BYTES, r.entries[..i])
    {
      var e := r.entries[i];
      if e.errorOccurred { return false, 0, 0; }
      assert r.entries[..i + 1][..i] == r.entries[..i];
      if e.runType.None? || e.runType == Some(ITERATION) {
        iterations := iterations + e.iterations;
        if e.downloadedBytes.Some? {
          bytes := bytes + Truncate(e.downloadedBytes.value);
        }
      }
    }
    assert r.entries[..|r.entries|] == r.entries;
    if iterations <= 0 && bytes <= 0 { return false, 0, 0; }
    return true, iterations, bytes;
  }

  // ---------------------------------------------------------------------------
  // One case
  // ---------------------------------------------------------------------------

  /** What the reports of a case add up to. */
  datatype Account = Account(iterations: int, bytes: int, success: nat, failed: nat)

  ghost function Accounted(reports: seq<Report>): Account {
    if reports == [] then Account(0, 0, 0, 0)
    else
      var a, r := Accounted(reports[..|reports| - 1]), reports[|reports| - 1];
      if Valid(r) then a.(iterations := a.iterations + Total(ITERATIONS, r.entries), success := a.success + 1)
      else a.(failed := a.failed + 1)
  }

  ghost function AccountedAsync(reports: seq<Report>): Account {
    if reports == [] then Account(0, 0, 0, 0)
    else
      var a, r := AccountedAsync(reports[..|reports| - 1]), reports[|reports| - 1];
      if ValidAsync(r)
      then Account(a.iterations + Total(ALL_ITERATIONS, r.entries), a.bytes + Total(ALL_BYTES, r.entries),
                   a.success + 1, a.failed)
      else a.(failed := a.failed + 1)
  }

  /** Totals add up over lists of entries. */
  lemma {:induction false} TotalsAddUp(f: Entry -> int, a: seq<Entry>, b: seq<Entry>)
    ensures Total(f, a + b) == Total(f, a) + Total(f, b)
  {
    if b == [] {
      assert a + b == a;
    } else {
      assert (a + b)[..|a + b| - 1] == a + b[..|b| - 1];
      TotalsAddUp(f, a, b[..|b| - 1]);
    }
  }

  /** What one entry counts.  Bytes are rounded toward zero. */
  lemma OneEntryCounts(e: Entry)
    ensures Total(ITERATIONS, [e]) == if e.runType == Some("iteration") then e.iterations else 0
    ensures Total(ALL_ITERATIONS, [e]) == if e.runType in [None, Some("iteration")] then e.iterations else 0
    ensures e.runType in [None, Some("iteration")] && e.downloadedBytes.Some? ==>
              var x, n := e.downloadedBytes.value, Total(ALL_BYTES, [e]);
              && (x >= 0.0 ==> 0.0 <= n as real <= x < n as real + 1.0)
              && (x <= 0.0 ==> n as real - 1.0 < x <= n as real <= 0.0)
    ensures e.runType !in [None, Some("iteration")] || e.downloadedBytes.None? ==> Total(ALL_BYTES, [e]) == 0
  {
    OneEntry(e);
    if e.downloadedBytes.Some? { TruncateIsTowardZero(e.downloadedBytes.value); }
  }

  lemma TruncateIsTowardZero(x: real)
    ensures x >= 0.0 ==> 0.0 <= Truncate(x) as real <= x < Truncate(x) as real + 1.0
    ensures x <= 0.0 ==> Truncate(x) as real - 1.0 < x <= Truncate(x) as real <= 0.0
  {
  }

  /** The accounts of two lists of reports, added up. */
  function Both(a: Account, b: Account): Account {
    Account(a.iterations + b.iterations, a.bytes + b.bytes, a.success + b.success, a.failed + b.failed)
  }

  /** What one report counts. */
  lemma OneReportCounts(r: Report)
    ensures Accounted([r]) == if Valid(r) then Account(Total(ITERATIONS, r.entries), 0, 1, 0) else Account(0, 0, 0, 1)
    ensures AccountedAsync([r]) ==
            if ValidAsync(r) then Account(Total(ALL_ITERATIONS, r.entries), Total(ALL_BYTES, r.entries), 1, 0)
            else Account(0, 0, 0, 1)
  {
    hide Valid; hide ValidAsync; hide Total;
    assert [r][..0] == [];
  }

  lemma BothIsSum()
    ensures forall a, b, c :: Both(Both(a, b), c) == Both(a, Both(b, c))
    ensures forall a :: Both(a, Account(0, 0, 0, 0)) == a
  {
  }

  lemma NoReports()
    ensures Accounted([]) == AccountedAsync([]) == Account(0, 0, 0, 0)
  {
  }

  lemma LastReport(reports: seq<Report>)
    requires reports != []
    ensures var n := |reports| - 1;
            && Accounted(reports) == Both(Accounted(reports[..n]), Accounted([reports[n]]))
            && AccountedAsync(reports) == Both(AccountedAsync(reports[..n]), AccountedAsync([reports[n]]))
  {
    hide Valid; hide ValidAsync; hide Total;
    OneReportCounts(reports[|reports| - 1]);
  }

  lemma {:induction false} AccountsAddUp(a: seq<Report>, b: seq<Report>)
    ensures Accounted(a + b) == Both(Accounted(a), Accounted(b))
    ensures AccountedAsync(a + b) == Both(AccountedAsync(a), AccountedAsync(b))
  {
    hide Accounted; hide AccountedAsync; hide Both;
    BothIsSum();
    if b == [] {
      NoReports();
      assert a + b == a;
    } else {
      var n := |b| - 1;
      assert a + b == (a + b[..n]) + [b[n]];
      AccountsAddUp(a, b[..n]);
      LastReport(a + b);
      LastReport(b);
    }
  }

  method AccountReports(reports: seq<Report>) returns (a: Account)
    ensures a == Accounted(reports)
  {
    hide Valid;
    a := Account(0, 0, 0, 0);
    for i := 0 to |reports|
      invariant a == Accounted(reports[..i])
    {
      assert reports[..i + 1][..i] == reports[..i];
      var valid, iterations := ParseBenchmarkJson(reports[i]);
      if valid {
        a := a.(iterations := a.iterations + iterations, success := a.success + 1);
      } else {
        a := a.(failed := a.failed + 1);
      }
    }
    assert reports[..|reports|] == reports;
  }

  method AccountReportsAsync(reports: seq<Report>) returns (a: Account)
    ensures a == AccountedAsync(reports)
  {
    hide ValidAsync;
    a := Account(0, 0, 0, 0);
    for i := 0 to |reports|
      invariant a == AccountedAsync(reports[..i])
    {
      assert reports[..i + 1][..i] == reports[..i];
      var valid, iterations, bytes := ParseBenchmarkJsonAsync(reports[i]);
      if valid {
        a := Account(a.iterations + iterations, a.bytes + bytes, a.success + 1, a.failed);
      } else {
        a := a.(failed := a.failed + 1);
      }
    }
    assert reports[..|reports|] == reports;
  }

  function RealBytes(a: Account, fileSize: nat): int {
    a.iterations * fileSize
  }

  function RealBytesAsync(a: Account, fileSize: nat): int {
    if a.bytes <= 0 then a.iterations * fileSize else a.bytes
  }

  /** The record of one case from its account. */
  function MeasurementOf(key: CaseKey, a: Account, realBytes: int, rawEnergyJ: real, idlePowerW: real, elapsedS: real)
    : Campaign.Measurement
  {
    var idle := idlePowerW * elapsedS;
    Campaign.Measurement(
      key, elapsedS, Some(Times(1000.0, elapsedS)), rawEnergyJ, idle,
      if rawEnergyJ - idle > 0.0 then rawEnergyJ - idle else 0.0,
      if elapsedS > 0.0 then realBytes as real / 1048576.0 / elapsedS else 0.0,
      if a.success > 0 then a.iterations as real / a.success as real else 0.0,
      a.iterations, a.success, a.failed)
  }

  /** What a record says.  Energies: the idle share and the net energy make up the raw energy,
      unless the idle share is all of it or more, and then the net energy is 0.  Throughput
      times time is what was transferred, downloads times processes what was counted. */
  ghost predicate Describes(m: Campaign.Measurement, realBytes: int, rawEnergyJ: real, idlePowerW: real,
                            elapsedS: real)
  {
    && m.elapsedS == elapsedS && m.elapsedMs == Some(1000.0 * elapsedS)
    && m.energyJRaw == rawEnergyJ && m.idleEnergyJ == idlePowerW * elapsedS
    && m.energyJ >= 0.0 && m.energyJ + m.idleEnergyJ >= m.energyJRaw
    && (m.energyJ == 0.0 || m.energyJ + m.idleEnergyJ == m.energyJRaw)
    && (if elapsedS > 0.0 then m.throughput * elapsedS * 1048576.0 == realBytes as real else m.throughput == 0.0)
    && m.downloadsPerProcess * m.success as real == m.totalIterations as real
    && (m.success == 0 ==> m.downloadsPerProcess == 0.0)
  }

  lemma RecordDescribes(key: CaseKey, a: Account, realBytes: int, rawEnergyJ: real, idlePowerW: real, elapsedS: real)
    requires a.success == 0 ==> a.iterations == 0
    ensures var m := MeasurementOf(key, a, realBytes, rawEnergyJ, idlePowerW, elapsedS);
            Describes(m, realBytes, rawEnergyJ, idlePowerW, elapsedS)
  {
    if a.success > 0 { Undivided(a.iterations as real, a.success as real); }
    if elapsedS > 0.0 { Undivided(realBytes as real / 1048576.0, elapsedS); }
  }

  lemma Undivided(x: real, y: real)
    requires y != 0.0
    ensures (x / y) * y == x
  {
  }

  /** `run_macro_bench_case`, after its processes have ended. */
  method RunMacroBenchCase(key: CaseKey, reports: seq<Report>, fileSize: nat, e1: nat, e2: nat, maxRange: nat,
                           idlePowerW: real, elapsedS: real)
    returns (m: Campaign.Measurement, realBytes: int)
    ensures m.key == key && m.success + m.failed == |reports|
    ensures m.success == Accounted(reports).success && m.totalIterations == Accounted(reports).iterations
    ensures m.success > 0 ==> m.downloadsPerProcess >= 1.0
    ensures realBytes == m.totalIterations * fileSize
    ensures Describes(m, realBytes, EnergyDeltaJ(e1, e2, maxRange), idlePowerW, elapsedS)
    ensures m.energyJRaw * 1000000.0 == (if e1 <= e2 then e2 - e1 else maxRange - e1 + e2) as real
  {
    var a := AccountReports(reports);
    EveryProcessIsCounted(reports);
    realBytes := RealBytes(a, fileSize);
    m := MeasurementOf(key, a, realBytes, EnergyDeltaJ(e1, e2, maxRange), idlePowerW, elapsedS);
    RecordDescribes(key, a, realBytes, EnergyDeltaJ(e1, e2, maxRange), idlePowerW, elapsedS);
    if a.success > 0 { AtLeastOne(a.iterations as real, a.success as real); }
  }

  lemma AtLeastOne(x: real, y: real)
    requires x >= y > 0.0
    ensures x / y >= 1.0
  {
    Undivided(x, y);
  }

  method RunMacroBenchCaseAsync(key: CaseKey, reports: seq<Report>, fileSize: nat, e1: nat, e2: nat, maxRange: nat,
                                idlePowerW: real, elapsedS: real)
    returns (m: Campaign.Measurement, realBytes: int)
    ensures m.key == key && m.success + m.failed == |reports|
    ensures m.success == AccountedAsync(reports).success && m.totalIterations == AccountedAsync(reports).iterations
    ensures var bytes := AccountedAsync(reports).bytes;
            realBytes == if bytes > 0 then bytes else m.totalIterations * fileSize
    ensures Describes(m, realBytes, EnergyDeltaJ(e1, e2, maxRange), idlePowerW, elapsedS)
    ensures m.energyJRaw * 1000000.0 == (if e1 <= e2 then e2 - e1 else maxRange - e1 + e2) as real
  {
    var a := AccountReportsAsync(reports);
    EveryProcessIsCounted(reports);
    realBytes := RealBytesAsync(a, fileSize);
    m := MeasurementOf(key, a, realBytes, EnergyDeltaJ(e1, e2, maxRange), idlePowerW, elapsedS);
    RecordDescribes(key, a, realBytes, EnergyDeltaJ(e1, e2, maxRange), idlePowerW, elapsedS);
  }

  /** Every process is either a success or a failure, in both variants, and a success counts at
      least one iteration, except in the variant. */
  lemma {:induction false} EveryProcessIsCounted(reports: seq<Report>)
    ensures Accounted(reports).success + Accounted(reports).failed == |reports|
    ensures AccountedAsync(reports).success + AccountedAsync(reports).failed == |reports|
    ensures Accounted(reports).iterations >= Accounted(reports).success
    ensures Accounted(reports).success == 0 ==> Accounted(reports).iterations == 0
    ensures AccountedAsync(reports).success == 0 ==> AccountedAsync(reports).iterations == 0
  {
    if reports != [] {
      EveryProcessIsCounted(reports[..|reports| - 1]);
    }
  }

  lemma {:induction false} SameIterations(entries: seq<Entry>)
    requires forall i :: 0 <= i < |entries| ==> entries[i].runType.Some?
    ensures Total(ITERATIONS, entries) == Total(ALL_ITERATIONS, entries)
  {
    if entries != [] {
      SameIterations(entries[..|entries| - 1]);
    }
  }

  /** Where every entry has a run type, the variant accepts what the others accept, and beyond
      that exactly the reports without errors that count bytes but no iteration. */
  lemma VariantsDiffer(r: Report)
    requires r.Readable? ==> forall i :: 0 <= i < |r.entries| ==> r.entries[i].runType.Some?
    ensures ValidAsync(r) <==> Valid(r) || (Clean(r) && Total(ALL_BYTES, r.entries) > 0)
  {
    if r.Readable? { SameIterations(r.entries); }
  }

  /** Such a report, with any number of bytes. */
  lemma BytesAloneAreSuccess(n: nat)
    requires n > 0
    ensures var r := Readable([Entry(false, Some(ITERATION), 0, Some(n as real))]);
            ValidAsync(r) && !Valid(r) && AccountedAsync([r]) == Account(0, n, 1, 0)
  {
    var e := Entry(false, Some(ITERATION), 0, Some(n as real));
    OneEntry(e);
    assert [Readable([e])][..0] == [];
  }

  // ---------------------------------------------------------------------------
  // Counted and downloaded bytes
  // ---------------------------------------------------------------------------

  /** A benchmark process: it did not get to its report, or it received some bytes and then
      succeeded or failed, as its library decides. */
  datatype Process = NoReport(rest: Report) | Ran(success: bool, received: seq<Byte>)

  /** The bytes a process received. */
  function Download(p: Process): seq<Byte> {
    match p case NoReport(_) => [] case Ran(_, received) => received
  }

  predicate Succeeded(p: Process) {
    p.Ran? && p.success
  }

  /** Every benchmark runs one iteration.  A failed one is reported with an error; the counter
      `downloaded_bytes` holds the bytes of a successful one. */
  function ReportOf(p: Process): Report {
    match p
    case NoReport(rest) => rest
    case Ran(success, received) =>
      if success then Readable([Entry(false, Some(ITERATION), 1, Some(|received| as real))])
      else Readable([Entry(true, Some(ITERATION), 0, Some(0.0))])
  }

  /** Processes of one case on a server of `payload`: what is received is a prefix of the
      payload, and not empty if the process succeeds; a report that is left half-written does
      not count. */
  ghost predicate Plausible(p: Process, payload: seq<Byte>) {
    match p
    case NoReport(rest) => !Valid(rest) && !ValidAsync(rest)
    case Ran(success, received) => received <= payload && (success ==> received != [])
  }

  /** Bytes received by the successful processes. */
  function Downloaded(processes: seq<Process>): nat {
    if processes == [] then 0
    else
      var p := processes[|processes| - 1];
      Downloaded(processes[..|processes| - 1]) + if Succeeded(p) then |Download(p)| else 0
  }

  function Successes(processes: seq<Process>): (n: nat)
    ensures n <= |processes|
  {
    if processes == [] then 0
    else Successes(processes[..|processes| - 1]) + if Succeeded(processes[|processes| - 1]) then 1 else 0
  }

  const REPORT_OF: Process -> Report := (p: Process) => ReportOf(p)

  lemma OneEntry(e: Entry)
    ensures Total(ITERATIONS, [e]) == ITERATIONS(e)
    ensures Total(ALL_ITERATIONS, [e]) == ALL_ITERATIONS(e)
    ensures Total(ALL_BYTES, [e]) == ALL_BYTES(e)
  {
  }

  lemma ReportIsRight(p: Process, payload: seq<Byte>)
    requires Plausible(p, payload)
    ensures var r := ReportOf(p);
            && (Valid(r) <==> Succeeded(p)) && (ValidAsync(r) <==> Succeeded(p))
            && (Succeeded(p) ==>
                  && 0 < |Download(p)| <= |payload|
                  && Total(ITERATIONS, r.entries) == 1 && Total(ALL_ITERATIONS, r.entries) == 1
                  && Total(ALL_BYTES, r.entries) == |Download(p)|)
  {
    if p.Ran? {
      var r := ReportOf(p);
      OneEntry(r.entries[0]);
      assert r.entries == [r.entries[0]];
    }
  }

  lemma {:induction false} AccountIsRight(processes: seq<Process>, payload: seq<Byte>)
    requires forall i :: 0 <= i < |processes| ==> Plausible(processes[i], payload)
    ensures var reports := Map(REPORT_OF, processes);
            var n := Successes(processes);
            && Accounted(reports) == Account(n, 0, n, |processes| - n)
            && AccountedAsync(reports) == Account(n, Downloaded(processes), n, |processes| - n)
  {
    hide Valid; hide ValidAsync; hide Succeeded; hide ReportOf; hide Plausible; hide Total; hide Download;
    if processes != [] {
      var n := |processes| - 1;
      AccountIsRight(processes[..n], payload);
      ReportIsRight(processes[n], payload);
      assert Map(REPORT_OF, processes)[..n] == Map(REPORT_OF, processes[..n]);
    }
  }

  ghost predicate AllComplete(processes: seq<Process>, payload: seq<Byte>) {
    forall i :: 0 <= i < |processes| ==> Succeeded(processes[i]) ==> Download(processes[i]) == payload
  }

  lemma {:induction false} DownloadedIsBounded(processes: seq<Process>, payload: seq<Byte>)
    requires forall i :: 0 <= i < |processes| ==> Plausible(processes[i], payload)
    ensures Downloaded(processes) <= Successes(processes) * |payload|
    ensures Downloaded(processes) == Successes(processes) * |payload| <==> AllComplete(processes, payload)
    ensures Downloaded(processes) == 0 <==> Successes(processes) == 0
  {
    hide Succeeded; hide Download; hide Plausible;
    if processes != [] {
      var n := |processes| - 1;
      DownloadedIsBounded(processes[..n], payload);
      LastIsBounded(processes[n], payload);
      assert AllComplete(processes, payload) <==>
             AllComplete(processes[..n], payload) && (Succeeded(processes[n]) ==> Download(processes[n]) == payload);
      assert (Successes(processes[..n]) + 1) * |payload| == Successes(processes[..n]) * |payload| + |payload|;
    }
  }

  lemma LastIsBounded(p: Process, payload: seq<Byte>)
    requires Plausible(p, payload)
    ensures Succeeded(p) ==> 0 < |Download(p)| <= |payload| && (|Download(p)| == |payload| <==> Download(p) == payload)
  {
    hide Succeeded; hide Valid; hide ValidAsync;
    ReportIsRight(p, payload);
    if p.Ran? && |Download(p)| == |payload| {
      assert Download(p) <= payload;
    }
  }

  /** One iteration counts as one whole file.  So what most scripts report is at least what the
      successful processes received, and it is exactly that when, and only when, each of them
      received the whole file; and then, and only then, do the two variants agree. */
  lemma {:induction false} CountedBytes(processes: seq<Process>, payload: seq<Byte>)
    requires forall i :: 0 <= i < |processes| ==> Plausible(processes[i], payload)
    ensures var reports := Map(REPORT_OF, processes);
            var bytes := RealBytes(Accounted(reports), |payload|);
            && RealBytesAsync(AccountedAsync(reports), |payload|) == Downloaded(processes) <= bytes
            && (bytes == Downloaded(processes) <==> AllComplete(processes, payload))
            && (bytes == RealBytesAsync(AccountedAsync(reports), |payload|) <==> AllComplete(processes, payload))
  {
    hide AllComplete; hide Plausible; hide Accounted; hide AccountedAsync;
    AccountIsRight(processes, payload);
    DownloadedIsBounded(processes, payload);
  }

  /** The benchmark over `recv`, blocking or not. */
  function RecvProcess(trace: seq<RecvOutcome>, waits: bool): Process {
    Ran(Counting(trace, waits, 0).0 == Success, NonBlocking(trace, []).output)
  }

  function AsioProcess(trace: seq<ReadOutcome>): Process {
    Ran(AsioCounting(trace).0 == Success, Taken(trace))
  }

  function CorosioProcess(trace: seq<ReadOutcome>): Process {
    Ran(CorosioCounting(trace).0 == Success, Taken(trace))
  }

  /** What `Plausible` supposes of a receiver is what the epoll server guarantees, in every run:
      what it counts are the bytes of a prefix of the payload.  A receiver that succeeds has got
      the whole payload exactly if the server closed its connection as finished. */
  lemma ServedProcessesArePlausible(sv: Server, s0: State, acts: seq<Action>, s: State, c: nat,
                                    trace: seq<RecvOutcome>, waits: bool)
    requires ServerTheorems.Reaches(sv, s0, acts, s) && c < |s.conns|
    requires WithoutRetries(trace) == Delivery.ClientView(sv, s0, acts, c)
    requires forall i :: 0 <= i < |trace| ==> (trace[i].WouldBlock? ==> waits) && (trace[i].Data? ==> trace[i].written)
    ensures var p := RecvProcess(trace, waits);
            && Plausible(p, sv.payload) && Counting(trace, waits, 0).1 == |Download(p)|
            && (Succeeded(p) ==>
                  && s.conns[c].phase.Closed?
                  && (Download(p) == sv.payload <==> s.conns[c].phase.why.Finished?))
  {
    Delivery.EndToEnd(sv, s0, acts, s, c, trace);
    CountingCounts(trace, waits, []);
  }

  /** The same of the asio and corosio receivers on a connection that delivers a prefix of what
      a sender has put on its wire.  Whatever the first accepts the second accepts; neither
      says that the download is complete, as a reset is a success of both exactly if some byte
      came before it. */
  lemma SentProcessesArePlausible(payload: seq<Byte>, attempts: seq<Attempt>, did: (nat, nat) -> Attempt,
                                  wire: seq<Byte>, end: End, trace: seq<ReadOutcome>)
    requires Refines(payload, attempts, did, wire, end) && Taken(trace) <= wire
    ensures Plausible(AsioProcess(trace), payload) && AsioCounting(trace).1 == |Taken(trace)|
    ensures Plausible(CorosioProcess(trace), payload) && CorosioCounting(trace).1 == |Taken(trace)|
    ensures Succeeded(AsioProcess(trace)) ==> Succeeded(CorosioProcess(trace))
    ensures LastError(trace) == (true, ConnectionReset) ==>
              && (Succeeded(AsioProcess(trace)) <==> Taken(trace) != [])
              && (Succeeded(CorosioProcess(trace)) <==> Taken(trace) != [])
  {
    WireIsPrefix(payload, attempts);
    PrefixOfPrefix(Taken(trace), wire, payload);
  }

  lemma PrefixOfPrefix(a: seq<Byte>, b: seq<Byte>, c: seq<Byte>)
    requires a <= b <= c
    ensures a <= c
  {
  }

  /** A connection delivers the wire in order, and reports the end of the file only when the
      sender has ended and everything on the wire was delivered. */
  ghost predicate Delivers(trace: seq<ReadOutcome>, wire: seq<Byte>, end: End) {
    && Taken(trace) <= wire
    && (LastError(trace) == (true, EndOfFile) ==> Taken(trace) == wire && end != Unfinished)
  }

  /** A download that ends with the end of the file is complete exactly if the whole payload was
      on the wire, and, unless a failing send left bytes there, exactly if the sender completed.
      It is a success of either benchmark exactly if there was anything on the wire. */
  lemma EndOfFileDecides(payload: seq<Byte>, attempts: seq<Attempt>, did: (nat, nat) -> Attempt,
                         wire: seq<Byte>, end: End, trace: seq<ReadOutcome>)
    requires Refines(payload, attempts, did, wire, end) && Delivers(trace, wire, end)
    requires LastError(trace) == (true, EndOfFile)
    ensures Taken(trace) == payload <==> wire == payload
    ensures QuietHalts(attempts) ==> (Taken(trace) == payload <==> end == Complete)
    ensures end == Complete ==> Taken(trace) == payload
    ensures Succeeded(AsioProcess(trace)) <==> wire != []
    ensures Succeeded(CorosioProcess(trace)) <==> wire != []
  {
    hide Fits; hide Deliver;
    WireIsPrefix(payload, attempts);
    if QuietHalts(attempts) { QuietSender(payload, attempts); }
  }

  /** The asio server and benchmark over any connection: after the end of the file the download
      is complete exactly if the sender completed. */
  method AsioTransfer(payload: seq<Byte>, write: (nat, nat) -> WriteSome, network: (seq<Byte>, End) -> seq<ReadOutcome>)
    returns (status: Status, total: nat, wire: seq<Byte>, end: End)
    requires forall i: nat, k: nat :: write(i, k).Wrote? ==> write(i, k).n <= k
    requires forall w, e :: Delivers(network(w, e), w, e)
    ensures var trace := network(wire, end);
            && Taken(trace) <= payload && total == |Taken(trace)|
            && (status == Success ==> Taken(trace) != [])
            && (LastError(trace) == (true, EndOfFile) ==>
                  && (Taken(trace) == payload <==> end == Complete)
                  && (status == Success <==> wire != []))
            && (NeverFails(|payload|, Writes(write)) ==> end == Complete)
  {
    hide Refines; hide NeverFails; hide QuietHalts;
    ghost var attempts;
    wire, end, attempts := AsioSend(payload, write);
    EndedSender(payload, attempts, Writes(write), wire, end);
    var trace := network(wire, end);
    assert Delivers(trace, wire, end);
    status, total := AsioReceiveData(trace);
    SentProcessesArePlausible(payload, attempts, Writes(write), wire, end, trace);
    if LastError(trace) == (true, EndOfFile) {
      AsioHaltsAreQuiet(payload, attempts, write, wire, end);
      EndOfFileDecides(payload, attempts, Writes(write), wire, end, trace);
    }
  }

  /** The same of corosio, whose failing write may put the last bytes on the wire. */
  method CorosioTransfer(payload: seq<Byte>, write: (nat, nat) -> WriteResult,
                         network: (seq<Byte>, End) -> seq<ReadOutcome>)
    returns (status: Status, total: nat, wire: seq<Byte>, end: End)
    requires forall i: nat, k: nat :: write(i, k).n <= k
    requires forall w, e :: Delivers(network(w, e), w, e)
    ensures var trace := network(wire, end);
            && Taken(trace) <= payload && total == |Taken(trace)|
            && (status == Success ==> Taken(trace) != [])
            && (LastError(trace) == (true, EndOfFile) ==>
                  && (Taken(trace) == payload <==> wire == payload)
                  && (end == Complete ==> Taken(trace) == payload)
                  && (status == Success <==> wire != []))
            && (NeverFails(|payload|, CoroWrites(write)) ==> end == Complete)
  {
    hide Refines; hide NeverFails; hide QuietHalts;
    ghost var attempts;
    wire, end, attempts := CorosioSend(payload, write);
    EndedSender(payload, attempts, CoroWrites(write), wire, end);
    var trace := network(wire, end);
    assert Delivers(trace, wire, end);
    status, total := CorosioReceiveData(trace);
    SentProcessesArePlausible(payload, attempts, CoroWrites(write), wire, end, trace);
    if LastError(trace) == (true, EndOfFile) {
      EndOfFileDecides(payload, attempts, CoroWrites(write), wire, end, trace);
    }
  }

  /** Without the end of the file success says nothing about completeness: after any nonempty
      part of the wire, a reset is a success of both. */
  lemma ResetIsSuccess(wire: seq<Byte>, end: End, n: nat) returns (trace: seq<ReadOutcome>)
    requires 0 < n <= |wire|
    ensures Delivers(trace, wire, end) && LastError(trace) == (true, ConnectionReset) && Taken(trace) == wire[..n]
    ensures Succeeded(AsioProcess(trace)) && Succeeded(CorosioProcess(trace))
  {
    trace := [Read(wire[..n], NoError), Read([], ConnectionReset)];
    assert trace[1..] == [Read([], ConnectionReset)];
    assert Taken(trace[1..]) == [] && LastError(trace[1..]) == (true, ConnectionReset);
  }

  /** The bytes of a read. */
  const BYTES_OF: ReadOutcome -> seq<Byte> := (r: ReadOutcome) => r.bytes

  /** Reads that bring bytes add up, whatever error comes with them, until one brings none.  Its
      error decides the asio benchmark: every error but the end of the file and a reset is a
      failure, however much came before.  For corosio it is a success like those. */
  lemma {:induction false} ReadsAddUp(full: seq<ReadOutcome>, last: ReadOutcome, rest: seq<ReadOutcome>)
    requires (forall i :: 0 <= i < |full| ==> full[i].bytes != []) && last.bytes == []
    ensures var trace, data := full + [last] + rest, Concat(Map(BYTES_OF, full));
            && Taken(trace) == data && LastError(trace) == (true, last.error)
            && AsioCounting(trace) == (if data == [] || last.error == OtherError then Failure else Success, |data|)
            && CorosioCounting(trace) == (if data == [] then Failure else Success, |data|)
            && (data == [] <==> full == [])
  {
    var trace := full + [last] + rest;
    if full == [] {
      assert trace == [last] + rest;
    } else {
      ReadsAddUp(full[1..], last, rest);
      assert trace[1..] == full[1..] + [last] + rest;
      assert Map(BYTES_OF, full)[1..] == Map(BYTES_OF, full[1..]);
    }
  }

  // ---------------------------------------------------------------------------
  // The TAPS benchmark
  // ---------------------------------------------------------------------------

  const EXPECTED_FILE_SIZE_BYTES: nat := 100 * 1024 * 1024

  /** What its receiving loop takes in: `None` is an error of `receive`, and an empty message
      ends the loop as well. */
  function TapsStream(received: seq<Option<seq<Byte>>>): seq<Byte> {
    if received == [] || received[0].None? || received[0].value == [] then []
    else received[0].value + TapsStream(received[1..])
  }

  /** Messages that arrive, and then an error or an empty message, or nothing more yet. */
  function Arrived(messages: seq<seq<Byte>>, rest: seq<Option<seq<Byte>>>): seq<Option<seq<Byte>>> {
    Map((m: seq<Byte>) => Some(m), messages) + rest
  }

  /** Nonempty messages are taken in one after the other, up to the first error or empty message
      and no further. */
  lemma {:induction false} MessagesAddUp(messages: seq<seq<Byte>>, rest: seq<Option<seq<Byte>>>)
    requires forall i :: 0 <= i < |messages| ==> messages[i] != []
    requires rest == [] || rest[0] == None || rest[0] == Some([])
    ensures TapsStream(Arrived(messages, rest)) == Concat(messages)
  {
    if messages == [] {
      assert Arrived(messages, rest) == rest;
    } else {
      MessagesAddUp(messages[1..], rest);
      assert Arrived(messages, rest)[1..] == Arrived(messages[1..], rest);
    }
  }

  method TapsReceiveData(connected: bool, received: seq<Option<seq<Byte>>>) returns (total: nat)
    ensures total == if connected then |TapsStream(received)| else 0
  {
    if !connected { return 0; }
    total := 0;
    var i := 0;
    while i < |received|
      invariant i <= |received| && total + |TapsStream(received[i..])| == |TapsStream(received)|
    {
      assert received[i..][1..] == received[i + 1..];
      if received[i].None? { break; }
      var data := received[i].value;
      if data == [] { break; }
      total := total + |data|;
      i := i + 1;
    }
  }

  predicate TapsSucceeds(connected: bool, received: seq<Option<seq<Byte>>>) {
    connected && |TapsStream(received)| == EXPECTED_FILE_SIZE_BYTES
  }

  /** The checks of the benchmark body. */
  method TapsDownload(connected: bool, received: seq<Option<seq<Byte>>>) returns (success: bool)
    ensures success <==> TapsSucceeds(connected, received)
  {
    var downloaded := TapsReceiveData(connected, received);
    if downloaded == 0 { return false; }
    if downloaded != EXPECTED_FILE_SIZE_BYTES { return false; }
    return true;
  }

  function TapsProcess(connected: bool, received: seq<Option<seq<Byte>>>): Process {
    Ran(TapsSucceeds(connected, received), if connected then TapsStream(received) else [])
  }

  /** Sender and benchmark together, on a connection that delivers a prefix of what the sender
      has put on its wire.  When the served file has the expected size, the benchmark succeeds
      exactly if the whole payload was sent and received, and never on a sender that stopped
      short or is under way.  A smaller file never succeeds, a larger one only truncated. */
  lemma {:induction false} TapsSuccessIsComplete(payload: seq<Byte>, chunkSize: nat, send: (nat, nat) -> MessageResult,
                              attempts: seq<Attempt>, wire: seq<Byte>, end: End,
                              connected: bool, received: seq<Option<seq<Byte>>>)
    requires Refines(payload, attempts, Messages(send, chunkSize), wire, end) && TapsStream(received) <= wire
    ensures Plausible(TapsProcess(connected, received), payload)
    ensures |payload| == EXPECTED_FILE_SIZE_BYTES ==>
              && (TapsSucceeds(connected, received) <==> connected && TapsStream(received) == wire == payload)
              && (wire != payload || end == Unfinished ==> !TapsSucceeds(connected, received))
    ensures |payload| < EXPECTED_FILE_SIZE_BYTES ==> !TapsSucceeds(connected, received)
    ensures |payload| > EXPECTED_FILE_SIZE_BYTES && TapsSucceeds(connected, received) ==>
              TapsStream(received) == payload[..EXPECTED_FILE_SIZE_BYTES] != payload
  {
    hide TapsStream; hide Deliver; hide Fits; hide Recorded; hide Messages;
    WireIsPrefix(payload, attempts);
    PrefixOfPrefix(TapsStream(received), wire, payload);
  }

  /** The whole transfer: the sender with the chunk size it reads, a network that delivers a
      prefix of what is sent, and the benchmark. */
  method TapsTransfer(payload: seq<Byte>, file: TcpWmem, send: (nat, nat) -> MessageResult, connected: bool,
                      network: seq<Byte> -> seq<Option<seq<Byte>>>)
    returns (success: bool, wire: seq<Byte>, end: End)
    requires forall w :: TapsStream(network(w)) <= w
    requires forall i: nat, k: nat :: send(i, k).Failed? ==> send(i, k).partial <= Min(ChunkSizeFrom(file), k)
    ensures |payload| == EXPECTED_FILE_SIZE_BYTES ==>
        (success <==> connected && TapsStream(network(wire)) == wire == payload)
    ensures |payload| < EXPECTED_FILE_SIZE_BYTES ==> !success
    ensures NeverFails(|payload|, Messages(send, ChunkSizeFrom(file))) ==> wire == payload
  {
    hide Refines; hide TapsStream; hide Chunks; hide NeverFails;
    var chunkSize := ReadDefaultTcpSendBufferSize(file);
    ghost var attempts;
    var messages;
    messages, wire, end, attempts := TapsSend(payload, chunkSize, send);
    EndedSender(payload, attempts, Messages(send, chunkSize), wire, end);
    success := TapsDownload(connected, network(wire));
    TapsSuccessIsComplete(payload, chunkSize, send, attempts, wire, end, connected, network(wire));
  }

  lemma {:induction false} ConcatOfPrefix(a: seq<seq<Byte>>, b: seq<seq<Byte>>)
    requires a <= b
    ensures Concat(a) <= Concat(b)
    ensures Concat(a) == Concat(b) && (forall i :: 0 <= i < |b| ==> b[i] != []) ==> a == b
  {
    if a != [] {
      assert a[1..] <= b[1..] && a[0] == b[0];
      ConcatOfPrefix(a[1..], b[1..]);
      assert Concat(a)[|a[0]|..] == Concat(a[1..]) && Concat(b)[|a[0]|..] == Concat(b[1..]);
    }
  }

  /** A network that hands over the very messages of the sender, of any size and number: the
      benchmark then succeeds exactly if the sender handed out all its messages and the file has
      the expected size, in particular for every such file whose sends succeed. */
  method TapsRelay(payload: seq<Byte>, file: TcpWmem, send: (nat, nat) -> MessageResult,
                   rest: seq<Option<seq<Byte>>>)
    returns (success: bool, messages: seq<seq<Byte>>, end: End)
    requires rest == [] || rest[0] == None || rest[0] == Some([])
    requires forall i: nat, k: nat :: send(i, k).Failed? ==> send(i, k).partial <= Min(ChunkSizeFrom(file), k)
    ensures messages <= Chunks(payload, ChunkSizeFrom(file))
    ensures success <==> |Concat(messages)| == EXPECTED_FILE_SIZE_BYTES
    ensures |payload| == EXPECTED_FILE_SIZE_BYTES ==>
              (success <==> messages == Chunks(payload, ChunkSizeFrom(file)))
    ensures |payload| == EXPECTED_FILE_SIZE_BYTES && NeverFails(|payload|, Messages(send, ChunkSizeFrom(file))) ==>
              success
  {
    hide Refines; hide TapsStream; hide Chunks; hide NeverFails; hide Concat;
    var chunkSize := ReadDefaultTcpSendBufferSize(file);
    var wire;
    ghost var attempts;
    messages, wire, end, attempts := TapsSend(payload, chunkSize, send);
    EndedSender(payload, attempts, Messages(send, chunkSize), wire, end);
    ChunksCutThePayload(payload, chunkSize);
    MessagesAddUp(messages, rest);
    ConcatOfPrefix(messages, Chunks(payload, chunkSize));
    success := TapsDownload(true, Arrived(messages, rest));
  }

  ghost predicate IsTaps(p: Process) {
    p.NoReport? || exists connected, received :: p == TapsProcess(connected, received)
  }

  /** So the bytes that the scripts count for TAPS are exact when the file has that size. */
  lemma TapsCountIsExact(processes: seq<Process>, payload: seq<Byte>)
    requires |payload| == EXPECTED_FILE_SIZE_BYTES
    requires forall i :: 0 <= i < |processes| ==> IsTaps(processes[i]) && Plausible(processes[i], payload)
    ensures RealBytes(Accounted(Map(REPORT_OF, processes)), |payload|) == Downloaded(processes)
    ensures RealBytesAsync(AccountedAsync(Map(REPORT_OF, processes)), |payload|) == Downloaded(processes)
  {
    hide Plausible; hide Accounted; hide AccountedAsync; hide Downloaded; hide TapsStream;
    forall i | 0 <= i < |processes| && Succeeded(processes[i])
      ensures Download(processes[i]) == payload
    {
      assert IsTaps(processes[i]);
      LastIsBounded(processes[i], payload);
    }
    CountedBytes(processes, payload);
  }
}
