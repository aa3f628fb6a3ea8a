/** A library's benchmark campaign and its summary, one entry per case. */
module Campaign {
  import opened Sorting
  import opened Orders
  import opened Grouping
  import opened Statistics

  /** One run of `run_macro_bench_case`.  Older files may lack `elapsed_ms`. */
  datatype Measurement = Measurement(
    key: CaseKey, elapsedS: real, elapsedMs: Option<real>, energyJRaw: real, idleEnergyJ: real, energyJ: real,
    throughput: real, downloadsPerProcess: real, totalIterations: int, success: int, failed: int)

  datatype Metric =
    | ElapsedS | ElapsedMs | EnergyJRaw | IdleEnergyJ | EnergyJ | Throughput
    | DownloadsPerProcess | TotalIterations | Success | Failed

  function Value(m: Metric, x: Measurement): real {
    match m
    case ElapsedS => x.elapsedS
    case ElapsedMs => (match x.elapsedMs case Some(v) => v case None => Times(1000.0, x.elapsedS))
    case EnergyJRaw => x.energyJRaw
    case IdleEnergyJ => x.idleEnergyJ
    case EnergyJ => x.energyJ
    case Throughput => x.throughput
    case DownloadsPerProcess => x.downloadsPerProcess
    case TotalIterations => x.totalIterations as real
    case Success => x.success as real
    case Failed => x.failed as real
  }

  function Values(m: Metric, items: seq<Measurement>): seq<real> {
    Map((x: Measurement) => Value(m, x), items)
  }

  const KEY_OF: Measurement -> CaseKey := (x: Measurement) => x.key

  function OfCase(k: CaseKey, results: seq<Measurement>): seq<Measurement> {
    Filter(Having(KEY_OF, k), results)
  }

  datatype CaseSummary = CaseSummary(
    key: CaseKey, runs: nat,
    elapsedS: Option<Stats>, elapsedMs: Option<Stats>, energyJRaw: Option<Stats>, idleEnergyJ: Option<Stats>,
    energyJ: Option<Stats>, throughput: Option<Stats>, downloadsPerProcess: Option<Stats>,
    totalIterations: Option<Stats>, success: Option<Stats>, failed: Option<Stats>)
  {
    function Of(m: Metric): Option<Stats> {
      match m
      case ElapsedS => elapsedS
      case ElapsedMs => elapsedMs
      case EnergyJRaw => energyJRaw
      case IdleEnergyJ => idleEnergyJ
      case EnergyJ => energyJ
      case Throughput => throughput
      case DownloadsPerProcess => downloadsPerProcess
      case TotalIterations => totalIterations
      case Success => success
      case Failed => failed
    }
  }

  /** The summary of one group. */
  function Summary(k: CaseKey, items: seq<Measurement>): CaseSummary {
    CaseSummary(k, |items|,
                ComputeStats(Values(ElapsedS, items)), ComputeStats(Values(ElapsedMs, items)),
                ComputeStats(Values(EnergyJRaw, items)), ComputeStats(Values(IdleEnergyJ, items)),
                ComputeStats(Values(EnergyJ, items)), ComputeStats(Values(Throughput, items)),
                ComputeStats(Values(DownloadsPerProcess, items)), ComputeStats(Values(TotalIterations, items)),
                ComputeStats(Values(Success, items)), ComputeStats(Values(Failed, items)))
  }

  lemma SummaryOf(k: CaseKey, items: seq<Measurement>, m: Metric)
    ensures Summary(k, items).Of(m) == ComputeStats(Values(m, items))
  {
    hide ComputeStats; hide Values; hide Value;
    match m {
      case ElapsedS =>
      case ElapsedMs =>
      case EnergyJRaw =>
      case IdleEnergyJ =>
      case EnergyJ =>
      case Throughput =>
      case DownloadsPerProcess =>
      case TotalIterations =>
      case Success =>
      case Failed =>
    }
  }

  /** Which fields the summary of a group is about. */
  lemma SummaryReadsFields(k: CaseKey, items: seq<Measurement>)
    ensures var r := Summary(k, items);
            && r.key == k && r.runs == |items|
            && r.elapsedS == ComputeStats(Map((x: Measurement) => x.elapsedS, items))
            && r.energyJRaw == ComputeStats(Map((x: Measurement) => x.energyJRaw, items))
            && r.idleEnergyJ == ComputeStats(Map((x: Measurement) => x.idleEnergyJ, items))
            && r.energyJ == ComputeStats(Map((x: Measurement) => x.energyJ, items))
            && r.throughput == ComputeStats(Map((x: Measurement) => x.throughput, items))
            && r.downloadsPerProcess == ComputeStats(Map((x: Measurement) => x.downloadsPerProcess, items))
            && r.totalIterations == ComputeStats(Map((x: Measurement) => x.totalIterations as real, items))
            && r.success == ComputeStats(Map((x: Measurement) => x.success as real, items))
            && r.failed == ComputeStats(Map((x: Measurement) => x.failed as real, items))
            && r.elapsedMs == ComputeStats(Map((x: Measurement) =>
                 if x.elapsedMs.Some? then x.elapsedMs.value else x.elapsedS * 1000.0, items))
  {
    hide ComputeStats;
    assert Values(ElapsedS, items) == Map((x: Measurement) => x.elapsedS, items);
    assert Values(EnergyJRaw, items) == Map((x: Measurement) => x.energyJRaw, items);
    assert Values(IdleEnergyJ, items) == Map((x: Measurement) => x.idleEnergyJ, items);
    assert Values(EnergyJ, items) == Map((x: Measurement) => x.energyJ, items);
    assert Values(Throughput, items) == Map((x: Measurement) => x.throughput, items);
    assert Values(DownloadsPerProcess, items) == Map((x: Measurement) => x.downloadsPerProcess, items);
    assert Values(TotalIterations, items) == Map((x: Measurement) => x.totalIterations as real, items);
    assert Values(Success, items) == Map((x: Measurement) => x.success as real, items);
    assert Values(Failed, items) == Map((x: Measurement) => x.failed as real, items);
    assert Values(ElapsedMs, items) == Map((x: Measurement) =>
      if x.elapsedMs.Some? then x.elapsedMs.value else x.elapsedS * 1000.0, items);
  }

  function SortedCases(results: seq<Measurement>): seq<CaseKey> {
    Sort(CaseLe, Keys(KEY_OF, results))
  }

  function Summarize(results: seq<Measurement>): seq<CaseSummary> {
    Map((k: CaseKey) => Summary(k, OfCase(k, results)), SortedCases(results))
  }

  /** `summarize_results`. */
  method SummarizeResults(results: seq<Measurement>) returns (summary: seq<CaseSummary>)
    ensures summary == Summarize(results)
  {
    hide Summary; hide Keys; hide Sort; hide Filter;
    var order, grouped := GroupBy(KEY_OF, results);
    var keys := Sort(CaseLe, order);
    SortSorts(CaseLe, order);
    summary := [];
    for i := 0 to |keys|
      invariant |summary| == i
      invariant forall j :: 0 <= j < i ==> summary[j] == Summary(keys[j], OfCase(keys[j], results))
    {
      assert keys[i] in multiset(keys);
      var items := grouped[keys[i]];
      summary := summary + [Summary(keys[i], items)];
    }
  }

  // ---------------------------------------------------------------------------
  // Cases partition the results
  // ---------------------------------------------------------------------------

  lemma SortedCasesAreTheCases(results: seq<Measurement>)
    ensures Sorted(CaseLe, SortedCases(results)) && NoRepeats(SortedCases(results))
    ensures forall k :: k in SortedCases(results) <==> exists i :: 0 <= i < |results| && results[i].key == k
  {
    var keys, sorted := Keys(KEY_OF, results), SortedCases(results);
    CaseOrder();
    SortSorts(CaseLe, keys);
    forall k
      ensures multiset(sorted)[k] <= 1
      ensures k in sorted <==> k in keys
    {
      NoRepeatsCount(keys, k);
    }
    SingleCountsDiffer(sorted);
    assert forall i :: 0 <= i < |results| ==> KEY_OF(results[i]) == results[i].key;
  }

  lemma {:induction false} SingleCountsDiffer<T(!new)>(s: seq<T>)
    requires forall x :: multiset(s)[x] <= 1
    ensures NoRepeats(s)
  {
    if s != [] {
      assert s == [s[0]] + s[1..];
      assert forall x :: multiset(s)[x] == multiset{s[0]}[x] + multiset(s[1..])[x];
      SingleCountsDiffer(s[1..]);
      forall j | 0 < j < |s|
        ensures s[0] != s[j]
      {
        assert s[j] == s[1..][j - 1] && s[j] in multiset(s[1..]);
      }
    }
  }

  lemma SummaryIsPerCase(results: seq<Measurement>, i: nat)
    requires i < |SortedCases(results)|
    ensures |Summarize(results)| == |SortedCases(results)|
    ensures Summarize(results)[i] == Summary(SortedCases(results)[i], OfCase(SortedCases(results)[i], results))
    ensures Summarize(results)[i].key == SortedCases(results)[i]
    ensures Summarize(results)[i].runs == |OfCase(SortedCases(results)[i], results)|
    ensures forall m :: Summarize(results)[i].Of(m) == ComputeStats(Values(m, OfCase(SortedCases(results)[i], results)))
  {
    hide ComputeStats; hide Values;
    var k := SortedCases(results)[i];
    forall m
      ensures Summary(k, OfCase(k, results)).Of(m) == ComputeStats(Values(m, OfCase(k, results)))
    {
      SummaryOf(k, OfCase(k, results), m);
    }
  }

  /** One entry per case, in strictly ascending order of cases. */
  lemma {:induction false} OneSummaryPerCase(results: seq<Measurement>)
    ensures |Summarize(results)| == |SortedCases(results)|
    ensures forall i :: 0 <= i < |Summarize(results)| ==> Summarize(results)[i].key == SortedCases(results)[i]
    ensures Sorted(CaseLe, SortedCases(results)) && NoRepeats(SortedCases(results))
    ensures forall k :: k in SortedCases(results) <==> exists i :: 0 <= i < |results| && results[i].key == k
  {
    hide Summary; hide ComputeStats;
    SortedCasesAreTheCases(results);
    forall i | 0 <= i < |Summarize(results)|
      ensures Summarize(results)[i].key == SortedCases(results)[i]
    {
      SummaryIsPerCase(results, i);
    }
  }

  /** Compilers ascend, the server threads of each compiler do, and the processes of both. */
  lemma {:induction false} SummaryAscends(results: seq<Measurement>, i: nat, j: nat)
    requires i < j < |Summarize(results)|
    ensures var x, y := Summarize(results)[i].key, Summarize(results)[j].key;
            && StringLe(x.compiler, y.compiler)
            && (x.compiler == y.compiler ==> x.serverThreads <= y.serverThreads)
            && (x.compiler == y.compiler && x.serverThreads == y.serverThreads ==> x.benchProcesses < y.benchProcesses)
  {
    hide Summarize; hide StringLe; hide SortedCases; hide CaseLe;
    OneSummaryPerCase(results);
    var x, y := SortedCases(results)[i], SortedCases(results)[j];
    CaseLeMeaning(x, y);
    assert x != y;
  }

  /** Sum of `f` over a list of cases. */
  ghost function SumOver(ks: seq<CaseKey>, f: CaseKey -> real): real {
    if ks == [] then 0.0 else f(ks[0]) + SumOver(ks[1..], f)
  }

  /** Total of a metric over the runs of a case. */
  ghost function CaseTotal(m: Metric, results: seq<Measurement>): CaseKey -> real {
    (k: CaseKey) => Sum(Values(m, OfCase(k, results)))
  }

  lemma {:induction false} SumOfAppend(a: seq<real>, b: seq<real>)
    ensures Sum(a + b) == Sum(a) + Sum(b)
  {
    if a == [] {
      assert [] + b == b;
    } else {
      assert (a + b)[1..] == a[1..] + b;
      SumOfAppend(a[1..], b);
    }
  }

  lemma {:induction false} SumOverBump(ks: seq<CaseKey>, f: CaseKey -> real, g: CaseKey -> real, k: CaseKey, v: real)
    requires NoRepeats(ks)
    requires forall x :: g(x) == f(x) + if x == k then v else 0.0
    ensures SumOver(ks, g) == SumOver(ks, f) + if k in ks then v else 0.0
  {
    if ks != [] {
      assert ks == [ks[0]] + ks[1..];
      SumOverBump(ks[1..], f, g, k, v);
    }
  }

  lemma {:induction false} SumOverZero(ks: seq<CaseKey>, f: CaseKey -> real)
    requires forall x :: f(x) == 0.0
    ensures SumOver(ks, f) == 0.0
  {
    if ks != [] {
      SumOverZero(ks[1..], f);
    }
  }

  lemma SumWithOneMore(m: Metric, items: seq<Measurement>, x: Measurement)
    ensures Sum(Values(m, items + [x])) == Sum(Values(m, items)) + Value(m, x)
  {
    assert Values(m, items + [x]) == Values(m, items) + [Value(m, x)];
    SumOfAppend(Values(m, items), [Value(m, x)]);
    assert [Value(m, x)][1..] == [];
  }

  lemma OneMoreRun(m: Metric, k: CaseKey, items: seq<Measurement>, x: Measurement)
    ensures OfCase(k, items + [x]) == OfCase(k, items) + if x.key == k then [x] else []
    ensures Sum(Values(m, OfCase(k, items + [x]))) == Sum(Values(m, OfCase(k, items)))
        + if x.key == k then Value(m, x) else 0.0
  {
    assert (items + [x])[..|items|] == items;
    assert KEY_OF(x) == x.key;
    if x.key == k {
      SumWithOneMore(m, OfCase(k, items), x);
    } else {
      assert OfCase(k, items) + [] == OfCase(k, items);
    }
  }

  lemma NothingOfCase(m: Metric, results: seq<Measurement>)
    requires results == []
    ensures forall k :: CaseTotal(m, results)(k) == 0.0
  {
  }

  /** The totals of the cases add up to the total, for any list of all cases. */
  lemma {:induction false} CasesPartition(m: Metric, ks: seq<CaseKey>, results: seq<Measurement>)
    requires NoRepeats(ks) && forall i :: 0 <= i < |results| ==> results[i].key in ks
    ensures SumOver(ks, CaseTotal(m, results)) == Sum(Values(m, results))
  {
    hide Value; hide SumOver; hide Filter;
    if results == [] {
      NothingOfCase(m, results);
      SumOverZero(ks, CaseTotal(m, results));
    } else {
      var n := |results| - 1;
      var x, earlier := results[n], results[..n];
      assert results == earlier + [x];
      CasesPartition(m, ks, earlier);
      forall k
        ensures CaseTotal(m, results)(k) == CaseTotal(m, earlier)(k) + if k == x.key then Value(m, x) else 0.0
      {
        OneMoreRun(m, k, earlier, x);
      }
      SumOverBump(ks, CaseTotal(m, earlier), CaseTotal(m, results), x.key, Value(m, x));
      SumWithOneMore(m, earlier, x);
    }
  }

  /** Sum over the summary of the number of runs times the mean. */
  ghost function WeightedMeans(m: Metric, summary: seq<CaseSummary>): real {
    if summary == [] then 0.0
    else
      var first := match summary[0].Of(m) case Some(r) => summary[0].runs as real * r.mean case None => 0.0;
      first + WeightedMeans(m, summary[1..])
  }

  lemma {:induction false} WeightedIsTotal(m: Metric, ks: seq<CaseKey>, results: seq<Measurement>,
                                           summary: seq<CaseSummary>)
    requires |summary| == |ks|
    requires forall i :: 0 <= i < |ks| ==> summary[i].runs == |OfCase(ks[i], results)|
    requires forall i :: 0 <= i < |ks| ==> summary[i].Of(m) == ComputeStats(Values(m, OfCase(ks[i], results)))
    ensures WeightedMeans(m, summary) == SumOver(ks, CaseTotal(m, results))
  {
    hide ComputeStats; hide Filter;
    if ks != [] {
      WeightedIsTotal(m, ks[1..], results, summary[1..]);
      WeightedMean(Values(m, OfCase(ks[0], results)));
    }
  }

  lemma WeightedMean(values: seq<real>)
    ensures (match ComputeStats(values) case Some(r) => |values| as real * r.mean case None => 0.0) == Sum(values)
  {
    hide Percentile; hide SortReals; hide Median; hide Variance; hide Least; hide Greatest;
    if values != [] {
      var n := |values| as real;
      assert n * (Sum(values) / n) == Sum(values);
    }
  }

  /** Nothing is lost or counted twice: runs times mean, added up over the cases, is the
      total of the raw values, for every metric. */
  lemma {:induction false} RunsTimesMeanIsTotal(m: Metric, results: seq<Measurement>)
    ensures WeightedMeans(m, Summarize(results)) == Sum(Values(m, results))
  {
    hide ComputeStats; hide Summary; hide Filter;
    SortedCasesAreTheCases(results);
    forall i | 0 <= i < |SortedCases(results)|
      ensures Summarize(results)[i].runs == |OfCase(SortedCases(results)[i], results)|
      ensures Summarize(results)[i].Of(m) == ComputeStats(Values(m, OfCase(SortedCases(results)[i], results)))
    {
      SummaryIsPerCase(results, i);
    }
    WeightedIsTotal(m, SortedCases(results), results, Summarize(results));
    CasesPartition(m, SortedCases(results), results);
  }

  // ---------------------------------------------------------------------------
  // Mean of means
  // ---------------------------------------------------------------------------

  /** Every case was run `n` times. */
  ghost predicate EvenRuns(n: nat, summary: seq<CaseSummary>) {
    forall i :: 0 <= i < |summary| ==> summary[i].runs == n
  }

  ghost function Means(m: Metric, summary: seq<CaseSummary>): seq<real>
    requires forall i :: 0 <= i < |summary| ==> summary[i].Of(m).Some?
  {
    if summary == [] then [] else [summary[0].Of(m).value.mean] + Means(m, summary[1..])
  }

  lemma FirstWeight(n: real, mean: real, means: seq<real>)
    ensures n * Sum([mean] + means) == n * mean + n * Sum(means)
  {
    assert ([mean] + means)[1..] == means;
  }

  lemma {:induction false} EvenWeights(m: Metric, n: nat, summary: seq<CaseSummary>)
    requires EvenRuns(n, summary) && forall i :: 0 <= i < |summary| ==> summary[i].Of(m).Some?
    ensures |Means(m, summary)| == |summary| && WeightedMeans(m, summary) == n as real * Sum(Means(m, summary))
  {
    if summary != [] {
      EvenWeights(m, n, summary[1..]);
      FirstWeight(n as real, summary[0].Of(m).value.mean, Means(m, summary[1..]));
    }
  }

  ghost function RunsOf(summary: seq<CaseSummary>): nat {
    if summary == [] then 0 else summary[0].runs + RunsOf(summary[1..])
  }

  lemma {:induction false} RunsAreWeights(summary: seq<CaseSummary>, n: nat)
    requires EvenRuns(n, summary)
    ensures RunsOf(summary) == n * |summary|
  {
    if summary != [] {
      RunsAreWeights(summary[1..], n);
    }
  }

  lemma SummaryHasStats(results: seq<Measurement>)
    ensures forall i, m :: 0 <= i < |Summarize(results)| ==>
        Summarize(results)[i].Of(m).Some? && Summarize(results)[i].runs > 0
  {
    SortedCasesAreTheCases(results);
    forall i, m | 0 <= i < |Summarize(results)|
      ensures Summarize(results)[i].Of(m).Some? && Summarize(results)[i].runs > 0
    {
      var k := SortedCases(results)[i];
      SummaryIsPerCase(results, i);
      assert k in SortedCases(results);
      var j :| 0 <= j < |results| && results[j].key == k;
      FilterHolds(Having(KEY_OF, k), results);
      assert results[j] in OfCase(k, results);
    }
  }

  /** The number of runs, as the total of a metric that is 1 everywhere. */
  lemma {:induction false} RunsPartition(ks: seq<CaseKey>, results: seq<Measurement>)
    requires NoRepeats(ks) && forall i :: 0 <= i < |results| ==> results[i].key in ks
    ensures SumOver(ks, (k: CaseKey) => |OfCase(k, results)| as real) == |results| as real
  {
    if results == [] {
      SumOverZero(ks, (k: CaseKey) => |OfCase(k, results)| as real);
    } else {
      var n := |results| - 1;
      var earlier := results[..n];
      RunsPartition(ks, earlier);
      SumOverBump(ks, (k: CaseKey) => |OfCase(k, earlier)| as real, (k: CaseKey) => |OfCase(k, results)| as real,
                  results[n].key, 1.0);
    }
  }

  lemma {:induction false} RunsOfIsSum(ks: seq<CaseKey>, results: seq<Measurement>, summary: seq<CaseSummary>)
    requires |summary| == |ks|
    requires forall i :: 0 <= i < |ks| ==> summary[i].runs == |OfCase(ks[i], results)|
    ensures RunsOf(summary) as real == SumOver(ks, (k: CaseKey) => |OfCase(k, results)| as real)
  {
    if ks != [] {
      RunsOfIsSum(ks[1..], results, summary[1..]);
    }
  }

  /** The runs of the cases add up to the number of results. */
  lemma {:induction false} RunsAddUp(results: seq<Measurement>)
    ensures RunsOf(Summarize(results)) == |results|
  {
    hide ComputeStats; hide Filter;
    SortedCasesAreTheCases(results);
    RunsOfIsSum(SortedCases(results), results, Summarize(results));
    RunsPartition(SortedCases(results), results);
  }

  /** With the same number of runs for every case, the mean of the case means is the mean of
      all raw values. */
  lemma {:induction false} MeanOfMeans(m: Metric, n: nat, results: seq<Measurement>)
    requires results != [] && EvenRuns(n, Summarize(results))
    ensures forall i :: 0 <= i < |Summarize(results)| ==> Summarize(results)[i].Of(m).Some?
    ensures Means(m, Summarize(results)) != []
    ensures Mean(Means(m, Summarize(results))) == Mean(Values(m, results))
  {
    hide ComputeStats; hide Summarize; hide Map; hide WeightedMeans; hide RunsOf; hide Sum;
    var summary := Summarize(results);
    SummaryHasStats(results);
    EvenWeights(m, n, summary);
    RunsTimesMeanIsTotal(m, results);
    RunsAreWeights(summary, n);
    RunsAddUp(results);
    var s := Sum(Means(m, summary));
    EvenQuotient(n, |summary|, |results|, s, Sum(Values(m, results)));
  }

  lemma EvenQuotient(n: nat, c: nat, total: nat, s: real, t: real)
    requires total == n * c && total > 0 && t == n as real * s
    ensures c > 0 && s / c as real == t / total as real
  {
  }

  // ---------------------------------------------------------------------------
  // The order of the results does not matter
  // ---------------------------------------------------------------------------

  lemma {:induction false} SummaryForgetsOrder(a: seq<Measurement>, b: seq<Measurement>)
    requires multiset(a) == multiset(b)
    ensures Summarize(a) == Summarize(b)
  {
    hide Summary; hide Filter; hide Keys; hide Sort; hide CaseLe;
    CaseOrder();
    KeysForgetOrder(KEY_OF, a, b);
    SortForgetsOrder(CaseLe, Keys(KEY_OF, a), Keys(KEY_OF, b));
    forall k
      ensures Summary(k, OfCase(k, a)) == Summary(k, OfCase(k, b))
    {
      GroupForgetsOrder(k, a, b);
    }
  }

  lemma GroupForgetsOrder(k: CaseKey, a: seq<Measurement>, b: seq<Measurement>)
    requires multiset(a) == multiset(b)
    ensures Summary(k, OfCase(k, a)) == Summary(k, OfCase(k, b))
  {
    var x, y := OfCase(k, a), OfCase(k, b);
    FilterForgetsOrder(Having(KEY_OF, k), a, b);
    SameLength(x, y);
    forall m
      ensures Summary(k, x).Of(m) == Summary(k, y).Of(m)
    {
      SummaryOf(k, x, m);
      SummaryOf(k, y, m);
      MapForgetsOrder((z: Measurement) => Value(m, z), x, y);
      StatsForgetOrder(Values(m, x), Values(m, y));
    }
    SameSummary(Summary(k, x), Summary(k, y));
  }

  lemma SameSummary(a: CaseSummary, b: CaseSummary)
    requires a.key == b.key && a.runs == b.runs && forall m :: a.Of(m) == b.Of(m)
    ensures a == b
  {
    assert a.Of(ElapsedS) == b.Of(ElapsedS) && a.Of(ElapsedMs) == b.Of(ElapsedMs)
        && a.Of(EnergyJRaw) == b.Of(EnergyJRaw);
    assert a.Of(IdleEnergyJ) == b.Of(IdleEnergyJ) && a.Of(EnergyJ) == b.Of(EnergyJ)
        && a.Of(Throughput) == b.Of(Throughput);
    assert a.Of(DownloadsPerProcess) == b.Of(DownloadsPerProcess) && a.Of(TotalIterations) == b.Of(TotalIterations);
    assert a.Of(Success) == b.Of(Success) && a.Of(Failed) == b.Of(Failed);
  }

  // ---------------------------------------------------------------------------
  // The loops of a campaign
  // ---------------------------------------------------------------------------

  /** The runs of one case: repetition 0, 1, ... */
  function Repeated(k: CaseKey, repetitions: nat, run: (CaseKey, nat) -> Measurement): (s: seq<Measurement>)
    ensures |s| == repetitions && forall r :: 0 <= r < repetitions ==> s[r] == run(k, r)
  {
    seq(repetitions, (r: nat) => run(k, r))
  }

  /** All the runs of the given cases, each repeated. */
  function RunsFor(keys: seq<CaseKey>, repetitions: nat, run: (CaseKey, nat) -> Measurement): seq<Measurement> {
    if keys == [] then []
    else RunsFor(keys[..|keys| - 1], repetitions, run) + Repeated(keys[|keys| - 1], repetitions, run)
  }

  function CasesOf(compiler: string, threads: int, cases: seq<int>): seq<CaseKey> {
    Map((benches: int) => CaseKey(compiler, threads, benches), cases)
  }

  function ThreadCases(compiler: string, threads: seq<int>, cases: seq<int>): seq<CaseKey> {
    if threads == [] then []
    else ThreadCases(compiler, threads[..|threads| - 1], cases) + CasesOf(compiler, threads[|threads| - 1], cases)
  }

  function AllCases(compilers: seq<string>, threads: seq<int>, cases: seq<int>): seq<CaseKey> {
    if compilers == [] then []
    else
      var last := |compilers| - 1;
      AllCases(compilers[..last], threads, cases) + ThreadCases(compilers[last], threads, cases)
  }

  lemma {:induction false} RunsForAppend(a: seq<CaseKey>, b: seq<CaseKey>, repetitions: nat,
                                         run: (CaseKey, nat) -> Measurement)
    ensures RunsFor(a + b, repetitions, run) == RunsFor(a, repetitions, run) + RunsFor(b, repetitions, run)
  {
    if b == [] {
      assert a + b == a;
    } else {
      assert (a + b)[..|a + b| - 1] == a + b[..|b| - 1];
      RunsForAppend(a, b[..|b| - 1], repetitions, run);
    }
  }

  /** `run_campaign_for_compiler_and_threads`: cases, then repetitions. */
  method RunCampaignForCompilerAndThreads(compiler: string, threads: int, cases: seq<int>, repetitions: nat,
                                          run: (CaseKey, nat) -> Measurement)
    returns (results: seq<Measurement>)
    ensures results == RunsFor(CasesOf(compiler, threads, cases), repetitions, run)
  {
    results := [];
    ghost var keys := CasesOf(compiler, threads, cases);
    for i := 0 to |cases|
      invariant results == RunsFor(keys[..i], repetitions, run)
    {
      ghost var earlier := results;
      var key := CaseKey(compiler, threads, cases[i]);
      for rep := 0 to repetitions
        invariant results == earlier + seq(rep, (r: nat) => run(key, r))
      {
        results := results + [run(key, rep)];
      }
      assert keys[..i + 1][..i] == keys[..i] && keys[i] == key;
    }
    assert keys[..|cases|] == keys;
  }

  /** The inner loop of `main`. */
  method RunCompiler(compiler: string, threads: seq<int>, cases: seq<int>, repetitions: nat,
                     run: (CaseKey, nat) -> Measurement)
    returns (results: seq<Measurement>)
    ensures results == RunsFor(ThreadCases(compiler, threads, cases), repetitions, run)
  {
    hide RunsFor; hide CasesOf;
    results := [];
    RunsForNone(repetitions, run);
    for j := 0 to |threads|
      invariant results == RunsFor(ThreadCases(compiler, threads[..j], cases), repetitions, run)
    {
      var more := RunCampaignForCompilerAndThreads(compiler, threads[j], cases, repetitions, run);
      results := results + more;
      RunsForAppend(ThreadCases(compiler, threads[..j], cases), CasesOf(compiler, threads[j], cases), repetitions, run);
      assert threads[..j + 1][..j] == threads[..j];
    }
    assert threads[..|threads|] == threads;
  }

  lemma RunsForNone(repetitions: nat, run: (CaseKey, nat) -> Measurement)
    ensures RunsFor([], repetitions, run) == []
  {
  }

  /** The loops of `main`: compilers, then server threads, then cases, then repetitions. */
  method RunAll(compilers: seq<string>, threads: seq<int>, cases: seq<int>, repetitions: nat,
                run: (CaseKey, nat) -> Measurement)
    returns (results: seq<Measurement>)
    ensures results == RunsFor(AllCases(compilers, threads, cases), repetitions, run)
  {
    hide RunsFor; hide ThreadCases;
    results := [];
    RunsForNone(repetitions, run);
    for i := 0 to |compilers|
      invariant results == RunsFor(AllCases(compilers[..i], threads, cases), repetitions, run)
    {
      var more := RunCompiler(compilers[i], threads, cases, repetitions, run);
      results := results + more;
      RunsForAppend(AllCases(compilers[..i], threads, cases), ThreadCases(compilers[i], threads, cases),
                    repetitions, run);
      assert compilers[..i + 1][..i] == compilers[..i];
    }
    assert compilers[..|compilers|] == compilers;
  }

  lemma RunsOfLast(keys: seq<CaseKey>, repetitions: nat, run: (CaseKey, nat) -> Measurement, k: CaseKey)
    requires keys != [] && forall c: CaseKey, r: nat :: run(c, r).key == c
    ensures var last := |keys| - 1;
            OfCase(k, RunsFor(keys, repetitions, run))
            == OfCase(k, RunsFor(keys[..last], repetitions, run))
               + if keys[last] == k then Repeated(k, repetitions, run) else []
  {
    hide Filter;
    var last := |keys| - 1;
    var runs := Repeated(keys[last], repetitions, run);
    FilterOfAppend(Having(KEY_OF, k), RunsFor(keys[..last], repetitions, run), runs);
    if keys[last] == k { FilterAll(Having(KEY_OF, k), runs); } else { FilterNone(Having(KEY_OF, k), runs); }
  }

  /** The results of a case are exactly its repetitions, in order; of anything else there are
      none. */
  lemma {:induction false} RunsPerCase(keys: seq<CaseKey>, repetitions: nat, run: (CaseKey, nat) -> Measurement,
                                       k: CaseKey)
    requires NoRepeats(keys) && forall c: CaseKey, r: nat :: run(c, r).key == c
    ensures OfCase(k, RunsFor(keys, repetitions, run)) == if k in keys then Repeated(k, repetitions, run) else []
  {
    hide RunsFor; hide Filter; hide Having; hide Repeated;
    if keys == [] {
      RunsForNone(repetitions, run);
      FilterNone(Having(KEY_OF, k), []);
    } else {
      var n := |keys| - 1;
      RunsPerCase(keys[..n], repetitions, run, k);
      RunsOfLast(keys, repetitions, run, k);
      assert keys == keys[..n] + [keys[n]];
      assert Repeated(k, repetitions, run) + [] == Repeated(k, repetitions, run);
      assert [] + Repeated(k, repetitions, run) == Repeated(k, repetitions, run);
    }
  }

  // ---------------------------------------------------------------------------
  // Every combination, in the order of the loops
  // ---------------------------------------------------------------------------

  /** Item `q` of block `i` of `blocks` blocks of `size` items. */
  lemma Place(i: nat, blocks: nat, size: nat, q: nat)
    requires i < blocks && q < size
    ensures i * size + q < blocks * size
    ensures i == blocks - 1 ==> i * size + q == (blocks - 1) * size + q
    ensures i < blocks - 1 ==> i * size + q < (blocks - 1) * size
  {
    var after := blocks - 1 - i;
    assert blocks == i + 1 + after;
    assert blocks * size == i * size + size + after * size;
    assert (blocks - 1) * size == i * size + after * size;
    assert after >= 1 ==>
        after * size >= size by { if after >= 1 { assert after * size == size + (after - 1) * size; } }
  }

  lemma OneMoreBlock(blocks: nat, size: nat)
    requires blocks > 0
    ensures blocks * size == (blocks - 1) * size + size
  {
  }

  lemma {:induction false} RunAt(keys: seq<CaseKey>, repetitions: nat, run: (CaseKey, nat) -> Measurement, q: nat,
                                 r: nat)
    ensures |RunsFor(keys, repetitions, run)| == |keys| * repetitions
    ensures q < |keys| && r < repetitions ==>
              q * repetitions + r < |keys| * repetitions
              && RunsFor(keys, repetitions, run)[q * repetitions + r] == run(keys[q], r)
  {
    if keys != [] {
      var n := |keys| - 1;
      RunAt(keys[..n], repetitions, run, q, r);
      OneMoreBlock(|keys|, repetitions);
      if q < |keys| && r < repetitions { Place(q, |keys|, repetitions, r); }
    }
  }

  lemma {:induction false} ThreadCaseAt(compiler: string, threads: seq<int>, cases: seq<int>, j: nat, l: nat)
    ensures |ThreadCases(compiler, threads, cases)| == |threads| * |cases|
    ensures j < |threads| && l < |cases| ==>
              j * |cases| + l < |threads| * |cases|
              && ThreadCases(compiler, threads, cases)[j * |cases| + l] == CaseKey(compiler, threads[j], cases[l])
  {
    if threads != [] {
      var n := |threads| - 1;
      ThreadCaseAt(compiler, threads[..n], cases, j, l);
      OneMoreBlock(|threads|, |cases|);
      if j < |threads| && l < |cases| { Place(j, |threads|, |cases|, l); }
    }
  }

  lemma {:induction false} CaseAt(compilers: seq<string>, threads: seq<int>, cases: seq<int>, i: nat, q: nat)
    ensures |AllCases(compilers, threads, cases)| == |compilers| * (|threads| * |cases|)
    ensures i < |compilers| && q < |threads| * |cases| ==>
              && i * (|threads| * |cases|) + q < |compilers| * (|threads| * |cases|)
              && |ThreadCases(compilers[i], threads, cases)| == |threads| * |cases|
              && AllCases(compilers, threads, cases)[i * (|threads| * |cases|) + q]
                 == ThreadCases(compilers[i], threads, cases)[q]
  {
    hide ThreadCases;
    if compilers != [] {
      var n := |compilers| - 1;
      CaseAt(compilers[..n], threads, cases, i, q);
      OneMoreBlock(|compilers|, |threads| * |cases|);
      ThreadCaseAt(compilers[n], threads, cases, 0, 0);
      if i < |compilers| && q < |threads| * |cases| {
        Place(i, |compilers|, |threads| * |cases|, q);
        ThreadCaseAt(compilers[i], threads, cases, 0, 0);
      }
    }
  }

  /** A campaign runs every combination of compiler, server threads and case, each of them
      `repetitions` times: first all of the first compiler, for each compiler first all of the
      first number of threads, and so on. */
  lemma CampaignIsComplete(compilers: seq<string>, threads: seq<int>, cases: seq<int>, repetitions: nat,
                           run: (CaseKey, nat) -> Measurement, i: nat, j: nat, l: nat, r: nat, at: nat)
    requires at == (i * (|threads| * |cases|) + (j * |cases| + l)) * repetitions + r
    ensures var results := RunsFor(AllCases(compilers, threads, cases), repetitions, run);
            && |results| == |compilers| * (|threads| * |cases|) * repetitions
            && (i < |compilers| && j < |threads| && l < |cases| && r < repetitions ==>
                  at < |results| && results[at] == run(CaseKey(compilers[i], threads[j], cases[l]), r))
  {
    hide RunsFor; hide AllCases; hide ThreadCases;
    var keys := AllCases(compilers, threads, cases);
    CaseAt(compilers, threads, cases, 0, 0);
    RunAt(keys, repetitions, run, 0, 0);
    if i < |compilers| && j < |threads| && l < |cases| && r < repetitions {
      ThreadCaseAt(compilers[i], threads, cases, j, l);
      CaseAt(compilers, threads, cases, i, j * |cases| + l);
      RunAt(keys, repetitions, run, i * (|threads| * |cases|) + (j * |cases| + l), r);
    }
  }

  lemma {:induction false} ThreadCasesAreAll(compiler: string, threads: seq<int>, cases: seq<int>, k: CaseKey)
    ensures k in ThreadCases(compiler, threads, cases) <==>
            k.compiler == compiler && k.serverThreads in threads && k.benchProcesses in cases
  {
    if threads != [] {
      var n := |threads| - 1;
      ThreadCasesAreAll(compiler, threads[..n], cases, k);
      assert threads == threads[..n] + [threads[n]];
      CasesAreAll(compiler, threads[n], cases, k);
    }
  }

  lemma CasesAreAll(compiler: string, threads: int, cases: seq<int>, k: CaseKey)
    ensures k in CasesOf(compiler, threads, cases) <==>
            k.compiler == compiler && k.serverThreads == threads && k.benchProcesses in cases
  {
    if k.compiler == compiler && k.serverThreads == threads && k.benchProcesses in cases {
      var i :| 0 <= i < |cases| && cases[i] == k.benchProcesses;
      assert CasesOf(compiler, threads, cases)[i] == k;
    }
  }

  /** The cases of a campaign are all combinations. */
  lemma {:induction false} AllCasesAreAll(compilers: seq<string>, threads: seq<int>, cases: seq<int>, k: CaseKey)
    ensures k in AllCases(compilers, threads, cases) <==>
            k.compiler in compilers && k.serverThreads in threads && k.benchProcesses in cases
  {
    hide ThreadCases;
    if compilers != [] {
      var n := |compilers| - 1;
      AllCasesAreAll(compilers[..n], threads, cases, k);
      ThreadCasesAreAll(compilers[n], threads, cases, k);
      assert compilers == compilers[..n] + [compilers[n]];
    }
  }

  lemma {:induction false} ThreadCasesDiffer(compiler: string, threads: seq<int>, cases: seq<int>)
    requires NoRepeats(threads) && NoRepeats(cases)
    ensures NoRepeats(ThreadCases(compiler, threads, cases))
    ensures forall k :: k in ThreadCases(compiler, threads, cases) ==>
        k.compiler == compiler && k.serverThreads in threads
  {
    if threads != [] {
      ThreadCasesDiffer(compiler, threads[..|threads| - 1], cases);
    }
  }

  lemma {:induction false} AllCasesDiffer(compilers: seq<string>, threads: seq<int>, cases: seq<int>)
    requires NoRepeats(compilers) && NoRepeats(threads) && NoRepeats(cases)
    ensures NoRepeats(AllCases(compilers, threads, cases))
    ensures forall k :: k in AllCases(compilers, threads, cases) ==> k.compiler in compilers
  {
    if compilers != [] {
      AllCasesDiffer(compilers[..|compilers| - 1], threads, cases);
      ThreadCasesDiffer(compilers[|compilers| - 1], threads, cases);
    }
  }

  /** The campaign loops give every case the same number of runs, so that the mean of the
      case means is the mean of all runs. */
  lemma {:induction false} CampaignMeanOfMeans(m: Metric, compilers: seq<string>, threads: seq<int>, cases: seq<int>,
                                               repetitions: nat, run: (CaseKey, nat) -> Measurement)
    requires NoRepeats(compilers) && NoRepeats(threads) && NoRepeats(cases)
    requires forall c: CaseKey, r: nat :: run(c, r).key == c
    requires RunsFor(AllCases(compilers, threads, cases), repetitions, run) != []
    ensures var results := RunsFor(AllCases(compilers, threads, cases), repetitions, run);
            && EvenRuns(repetitions, Summarize(results))
            && (forall i :: 0 <= i < |Summarize(results)| ==> Summarize(results)[i].Of(m).Some?)
            && Means(m, Summarize(results)) != []
            && Mean(Means(m, Summarize(results))) == Mean(Values(m, results))
  {
    var keys := AllCases(compilers, threads, cases);
    var results := RunsFor(keys, repetitions, run);
    AllCasesDiffer(compilers, threads, cases);
    SummaryHasStats(results);
    forall i | 0 <= i < |Summarize(results)|
      ensures Summarize(results)[i].runs == repetitions
    {
      RunsPerCase(keys, repetitions, run, SortedCases(results)[i]);
      SummaryIsPerCase(results, i);
      assert Summarize(results)[i].runs > 0 && Summarize(results)[i].Of(m).Some?;
    }
    MeanOfMeans(m, repetitions, results);
  }
}
