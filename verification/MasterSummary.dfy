/** `build_master_summary.py`: one table of rows from the summary files of all libraries. */
module MasterSummary {
  import opened Sorting
  import opened Orders
  import opened Grouping
  import opened Statistics
  import opened Campaign

  datatype StatKey = CountKey | MeanKey | MedianKey | StdevKey | P25Key | P50Key | P95Key | MinKey | MaxKey

  const STAT_KEYS: seq<StatKey> := [CountKey, MeanKey, MedianKey, StdevKey, P25Key, P50Key, P95Key, MinKey, MaxKey]

  const STAT_PREFIXES: seq<Metric> :=
    [ElapsedS, ElapsedMs, EnergyJRaw, IdleEnergyJ, EnergyJ, Throughput, DownloadsPerProcess, TotalIterations, Success,
     Failed]

  /** A dictionary of statistics as read from a file; entries that are null are absent. */
  type StatDict = map<StatKey, real>

  /** One element of the list `summary` of a file; dictionaries that are null are absent. */
  datatype Item = Item(key: CaseKey, runs: Option<int>, stats: map<Metric, StatDict>)

  /** A summary file, named after its library.  Not every file has a list `summary`. */
  datatype SummaryFile = SummaryFile(libraryId: string, summary: Option<seq<Item>>) {
    function Items(): seq<Item> {
      match summary case Some(items) => items case None => []
    }
  }

  datatype Field = Field(prefix: Metric, key: StatKey)

  type Fields = map<Field, Option<real>>

  /** `dict.get`. */
  function Lookup<K, V>(m: map<K, V>, k: K): Option<V> {
    if k in m then Some(m[k]) else None
  }

  function Get(fields: Fields, m: Metric, k: StatKey): Option<real> {
    if Field(m, k) in fields then fields[Field(m, k)] else None
  }

  function StatOf(stats: Option<StatDict>, k: StatKey): Option<real> {
    match stats case Some(d) => Lookup(d, k) case None => None
  }

  /** `safe_div`: a quotient exactly when there is one. */
  function SafeDiv(num: Option<real>, den: Option<real>): (r: Option<real>)
    ensures r.Some? <==> num.Some? && den.Some? && den.value != 0.0
    ensures r.Some? ==> r.value * den.value == num.value
  {
    if num.None? || den.None? || den.value == 0.0 then None
    else Some(num.value / den.value)
  }

  datatype MasterRow = MasterRow(
    libraryId: string, key: CaseKey, runs: Option<int>, fields: Fields,
    throughputPerJouleMean: Option<real>, throughputPerJouleMedian: Option<real>, downloadsPerSecondMean: Option<real>)

  // ---------------------------------------------------------------------------
  // One row
  // ---------------------------------------------------------------------------

  ghost function FlatStats(m: Metric, stats: Option<StatDict>, ks: seq<StatKey>): Fields {
    map k | k in ks :: Field(m, k) := StatOf(stats, k)
  }

  ghost function FlatItem(item: Item): Fields {
    map m: Metric, k: StatKey | true :: Field(m, k) := StatOf(Lookup(item.stats, m), k)
  }

  /** A missing milliseconds entry is derived from the seconds entry, entry by entry. */
  ghost function WithElapsedMs(fields: Fields, ks: seq<StatKey>): Fields {
    fields + map k | k in ks && Get(fields, ElapsedMs, k).None? && Get(fields, ElapsedS, k).Some?
                 :: Field(ElapsedMs, k) := Some(Times(1000.0, Get(fields, ElapsedS, k).value))
  }

  ghost function RowOf(libraryId: string, item: Item): MasterRow {
    var f := WithElapsedMs(FlatItem(item), STAT_KEYS);
    MasterRow(libraryId, item.key, item.runs, f,
              SafeDiv(Get(f, Throughput, MeanKey), Get(f, EnergyJ, MeanKey)),
              SafeDiv(Get(f, Throughput, MedianKey), Get(f, EnergyJ, MedianKey)),
              SafeDiv(Get(f, DownloadsPerProcess, MeanKey), Get(f, ElapsedS, MeanKey)))
  }

  lemma EveryKeyIsListed()
    ensures forall k: StatKey :: k in STAT_KEYS
    ensures NoRepeats(STAT_KEYS)
    ensures forall m: Metric :: m in STAT_PREFIXES
  {
    forall k: StatKey
      ensures k in STAT_KEYS
    {
      match k {
        case CountKey => assert STAT_KEYS[0] == k;
        case MeanKey => assert STAT_KEYS[1] == k;
        case MedianKey => assert STAT_KEYS[2] == k;
        case StdevKey => assert STAT_KEYS[3] == k;
        case P25Key => assert STAT_KEYS[4] == k;
        case P50Key => assert STAT_KEYS[5] == k;
        case P95Key => assert STAT_KEYS[6] == k;
        case MinKey => assert STAT_KEYS[7] == k;
        case MaxKey => assert STAT_KEYS[8] == k;
      }
    }
    forall m: Metric
      ensures m in STAT_PREFIXES
    {
      match m {
        case ElapsedS => assert STAT_PREFIXES[0] == m;
        case ElapsedMs => assert STAT_PREFIXES[1] == m;
        case EnergyJRaw => assert STAT_PREFIXES[2] == m;
        case IdleEnergyJ => assert STAT_PREFIXES[3] == m;
        case EnergyJ => assert STAT_PREFIXES[4] == m;
        case Throughput => assert STAT_PREFIXES[5] == m;
        case DownloadsPerProcess => assert STAT_PREFIXES[6] == m;
        case TotalIterations => assert STAT_PREFIXES[7] == m;
        case Success => assert STAT_PREFIXES[8] == m;
        case Failed => assert STAT_PREFIXES[9] == m;
      }
    }
  }

  /** The dictionary a row is built up in. */
  class RowDict {
    var fields: Fields

    constructor ()
      ensures fields == map[]
    {
      fields := map[];
    }

    method FlattenStats(m: Metric, stats: Option<StatDict>)
      modifies this
      ensures fields == old(fields) + FlatStats(m, stats, STAT_KEYS)
    {
      var missing := stats.None? || stats.value == map[];
      for i := 0 to |STAT_KEYS|
        invariant fields == old(fields) + FlatStats(m, stats, STAT_KEYS[..i])
      {
        var k := STAT_KEYS[i];
        assert STAT_KEYS[..i + 1] == STAT_KEYS[..i] + [k];
        if missing {
          fields := fields[Field(m, k) := None];
        } else {
          fields := fields[Field(m, k) := Lookup(stats.value, k)];
        }
        OneMoreStat(m, stats, STAT_KEYS[..i], k, old(fields));
      }
      assert STAT_KEYS[..|STAT_KEYS|] == STAT_KEYS;
    }

    method EnsureElapsedMsFields()
      modifies this
      ensures fields == WithElapsedMs(old(fields), STAT_KEYS)
    {
      hide WithElapsedMs;
      EveryKeyIsListed();
      NoKeysNoMillis(fields);
      for i := 0 to |STAT_KEYS|
        invariant fields == WithElapsedMs(old(fields), STAT_KEYS[..i])
      {
        var k := STAT_KEYS[i];
        assert STAT_KEYS[..i + 1] == STAT_KEYS[..i] + [k];
        OneMoreMillis(old(fields), STAT_KEYS[..i], k);
        if Get(fields, ElapsedMs, k).None? && Get(fields, ElapsedS, k).Some? {
          fields := fields[Field(ElapsedMs, k) := Some(Times(1000.0, Get(fields, ElapsedS, k).value))];
        }
      }
      assert STAT_KEYS[..|STAT_KEYS|] == STAT_KEYS;
    }
  }

  lemma NoKeysNoMillis(fields: Fields)
    ensures WithElapsedMs(fields, STAT_KEYS[..0]) == fields
  {
  }

  lemma OneMoreMillis(before: Fields, ks: seq<StatKey>, k: StatKey)
    requires k !in ks
    ensures var fields := WithElapsedMs(before, ks);
            WithElapsedMs(before, ks + [k]) ==
            if Get(fields, ElapsedMs, k).None? && Get(fields, ElapsedS, k).Some?
            then fields[Field(ElapsedMs, k) := Some(Times(1000.0, Get(fields, ElapsedS, k).value))]
            else fields
  {
    hide WithElapsedMs;
    var fields, next := WithElapsedMs(before, ks), WithElapsedMs(before, ks + [k]);
    MillisAt(before, ks, Field(ElapsedMs, k));
    MillisAt(before, ks, Field(ElapsedS, k));
    var want := if Get(fields, ElapsedMs, k).None? && Get(fields, ElapsedS, k).Some?
               then fields[Field(ElapsedMs, k) := Some(Times(1000.0, Get(fields, ElapsedS, k).value))] else fields;
    forall g
      ensures (g in next <==> g in want) && (g in next ==> next[g] == want[g])
    {
      MillisAt(before, ks, g);
      MillisAt(before, ks + [k], g);
    }
  }

  lemma MillisAt(before: Fields, ks: seq<StatKey>, g: Field)
    ensures var fields := WithElapsedMs(before, ks);
            if g.prefix == ElapsedMs && g.key in ks && Get(before, ElapsedMs, g.key).None?
                && Get(before, ElapsedS, g.key).Some?
            then g in fields && fields[g] == Some(Times(1000.0, Get(before, ElapsedS, g.key).value))
            else (g in fields <==> g in before) && (g in fields ==> fields[g] == before[g])
  {
  }

  lemma OneMoreStat(m: Metric, stats: Option<StatDict>, ks: seq<StatKey>, k: StatKey, before: Fields)
    ensures (before + FlatStats(m, stats, ks))[Field(m, k) := StatOf(stats, k)]
            == before + FlatStats(m, stats, ks + [k])
  {
    hide FlatStats; hide StatOf;
    var a, b := FlatStats(m, stats, ks), FlatStats(m, stats, ks + [k]);
    forall g
      ensures g in b <==> g in a || g == Field(m, k)
      ensures g in b ==> b[g] == if g == Field(m, k) then StatOf(stats, k) else a[g]
    {
      FlatAt(m, stats, ks, g);
      FlatAt(m, stats, ks + [k], g);
    }
    assert a[Field(m, k) := StatOf(stats, k)] == b;
    assert (before + a)[Field(m, k) := StatOf(stats, k)] == before + a[Field(m, k) := StatOf(stats, k)];
  }

  lemma FlatAt(m: Metric, stats: Option<StatDict>, ks: seq<StatKey>, g: Field)
    ensures g in FlatStats(m, stats, ks) <==> g.prefix == m && g.key in ks
    ensures g in FlatStats(m, stats, ks) ==> FlatStats(m, stats, ks)[g] == StatOf(stats, g.key)
  {
  }

  method BuildRow(libraryId: string, item: Item) returns (row: MasterRow)
    ensures row == RowOf(libraryId, item)
  {
    EveryKeyIsListed();
    var dict := new RowDict();
    for i := 0 to |STAT_PREFIXES|
      invariant fresh(dict)
      invariant forall g :: g in dict.fields <==> g.prefix in STAT_PREFIXES[..i]
      invariant forall g :: g in dict.fields ==> dict.fields[g] == FlatItem(item)[g]
    {
      assert STAT_PREFIXES[..i + 1] == STAT_PREFIXES[..i] + [STAT_PREFIXES[i]];
      dict.FlattenStats(STAT_PREFIXES[i], Lookup(item.stats, STAT_PREFIXES[i]));
    }
    assert STAT_PREFIXES[..|STAT_PREFIXES|] == STAT_PREFIXES;
    assert dict.fields == FlatItem(item);
    dict.EnsureElapsedMsFields();
    var f := dict.fields;
    row := MasterRow(libraryId, item.key, item.runs, f,
                     SafeDiv(Get(f, Throughput, MeanKey), Get(f, EnergyJ, MeanKey)),
                     SafeDiv(Get(f, Throughput, MedianKey), Get(f, EnergyJ, MedianKey)),
                     SafeDiv(Get(f, DownloadsPerProcess, MeanKey), Get(f, ElapsedS, MeanKey)));
  }

  // ---------------------------------------------------------------------------
  // The fallback from seconds to milliseconds
  // ---------------------------------------------------------------------------

  /** `d` holds the statistics `r`; the standard deviation is the root of the variance. */
  ghost predicate Encodes(d: StatDict, r: Stats) {
    && (forall k: StatKey :: k in d)
    && d[CountKey] == r.count as real && d[MeanKey] == r.mean && d[MedianKey] == r.median
    && d[StdevKey] >= 0.0 && Square(d[StdevKey]) == r.variance
    && d[P25Key] == r.p25 && d[P50Key] == r.p50 && d[P95Key] == r.p95 && d[MinKey] == r.min && d[MaxKey] == r.max
  }

  lemma RootIsUnique(x: real, y: real)
    requires x >= 0.0 && y >= 0.0 && Square(x) == Square(y)
    ensures x == y
  {
    if x < y { SmallerRoot(x, y); } else if y < x { SmallerRoot(y, x); }
  }

  lemma SquareScales(c: real, x: real)
    ensures Square(Times(c, x)) == Times(c * c, Square(x))
  {
  }

  /** A thousand times the statistics of the seconds are the statistics of the milliseconds,
      entry by entry, except the number of values, for which it is never right. */
  lemma FallbackIsSound(values: seq<real>, seconds: StatDict, millis: StatDict)
    requires values != []
    requires Encodes(seconds, ComputeStats(values).value)
    requires Encodes(millis, ComputeStats(Scale(1000.0, values)).value)
    ensures forall k: StatKey :: Times(1000.0, seconds[k]) == millis[k] <==> k != CountKey
  {
    hide ComputeStats; hide Scale;
    CountIsLength(values);
    StatsScale(1000.0, values);
    SquareScales(1000.0, seconds[StdevKey]);
    RootIsUnique(Times(1000.0, seconds[StdevKey]), millis[StdevKey]);
  }

  lemma CountIsLength(values: seq<real>)
    requires values != []
    ensures ComputeStats(values).Some? && ComputeStats(values).value.count == |values|
  {
  }

  /** A file written before `elapsed_ms` was recorded gives the row that a file with it would
      have given, up to the entry for the number of values. */
  lemma {:induction false} OlderFilesFallBack(libraryId: string, older: Item, newer: Item, values: seq<real>)
    requires values != []
    requires ElapsedMs in newer.stats && older.stats == newer.stats - {ElapsedMs}
    requires older.key == newer.key && older.runs == newer.runs
    requires ElapsedS in older.stats && Encodes(older.stats[ElapsedS], ComputeStats(values).value)
    requires Encodes(newer.stats[ElapsedMs], ComputeStats(Scale(1000.0, values)).value)
    ensures var count := Field(ElapsedMs, CountKey);
            var a, b := RowOf(libraryId, older), RowOf(libraryId, newer);
            && count in a.fields && a == b.(fields := b.fields[count := a.fields[count]])
            && a.fields[count] == Some(1000.0 * |values| as real) && a != b
  {
    hide ComputeStats; hide Scale; hide WithElapsedMs; hide FlatItem; hide Encodes;
    FallbackIsSound(values, older.stats[ElapsedS], newer.stats[ElapsedMs]);
    CountIsLength(values);
    StatsScale(1000.0, values);
    EncodesAll(older.stats[ElapsedS], ComputeStats(values).value);
    EncodesAll(newer.stats[ElapsedMs], ComputeStats(Scale(1000.0, values)).value);
    var count := Field(ElapsedMs, CountKey);
    var a, b := RowOf(libraryId, older).fields, RowOf(libraryId, newer).fields;
    forall g: Field
      ensures g in a && g in b && (g != count <==> a[g] == b[g])
    {
      RowAt(libraryId, older, g.prefix, g.key);
      RowAt(libraryId, newer, g.prefix, g.key);
    }
    RowAt(libraryId, older, ElapsedMs, CountKey);
    assert a == b[count := a[count]];
  }

  lemma EncodesAll(d: StatDict, r: Stats)
    requires Encodes(d, r)
    ensures (forall k: StatKey :: k in d) && d[CountKey] == r.count as real && d[MeanKey] == r.mean
  {
  }

  /** What a row holds for a metric and a statistic. */
  lemma RowAt(libraryId: string, item: Item, m: Metric, k: StatKey)
    ensures var given, seconds := StatOf(Lookup(item.stats, m), k), StatOf(Lookup(item.stats, ElapsedS), k);
            && Field(m, k) in RowOf(libraryId, item).fields
            && RowOf(libraryId, item).fields[Field(m, k)] ==
               if m == ElapsedMs && given.None? && seconds.Some? then Some(Times(1000.0, seconds.value)) else given
  {
    EveryKeyIsListed();
    assert Get(FlatItem(item), m, k) == StatOf(Lookup(item.stats, m), k);
    assert Get(FlatItem(item), ElapsedS, k) == StatOf(Lookup(item.stats, ElapsedS), k);
  }

  /** `q` times the divisor is the dividend, and there is a `q` exactly if both are there and
      the divisor is not 0. */
  ghost predicate IsQuotient(q: Option<real>, dividend: Option<real>, divisor: Option<real>) {
    && (q.Some? <==> dividend.Some? && divisor.Some? && divisor.value != 0.0)
    && (q.Some? ==> q.value * divisor.value == dividend.value)
  }

  /** The derived values of a row, from the statistics of its item: throughput by energy, of the
      means and of the medians, and downloads by elapsed seconds. */
  lemma RatiosOfItem(libraryId: string, item: Item)
    ensures var row := RowOf(libraryId, item);
            && row.libraryId == libraryId && row.key == item.key && row.runs == item.runs
            && IsQuotient(row.throughputPerJouleMean,
                          StatOf(Lookup(item.stats, Throughput), MeanKey), StatOf(Lookup(item.stats, EnergyJ), MeanKey))
            && IsQuotient(row.throughputPerJouleMedian,
                          StatOf(Lookup(item.stats, Throughput), MedianKey),
                          StatOf(Lookup(item.stats, EnergyJ), MedianKey))
            && IsQuotient(row.downloadsPerSecondMean,
                          StatOf(Lookup(item.stats, DownloadsPerProcess), MeanKey),
                          StatOf(Lookup(item.stats, ElapsedS), MeanKey))
  {
    hide FlatItem; hide WithElapsedMs; hide StatOf; hide Lookup;
    RowAt(libraryId, item, Throughput, MeanKey);
    RowAt(libraryId, item, Throughput, MedianKey);
    RowAt(libraryId, item, EnergyJ, MeanKey);
    RowAt(libraryId, item, EnergyJ, MedianKey);
    RowAt(libraryId, item, DownloadsPerProcess, MeanKey);
    RowAt(libraryId, item, ElapsedS, MeanKey);
  }

  /** Both fallbacks, the one for single runs and the one for statistics, agree. */
  lemma {:induction false} OlderRunsScale(items: seq<Measurement>)
    requires forall i :: 0 <= i < |items| ==> items[i].elapsedMs.None?
    ensures Values(ElapsedMs, items) == Scale(1000.0, Values(ElapsedS, items))
  {
  }

  // ---------------------------------------------------------------------------
  // All rows
  // ---------------------------------------------------------------------------

  predicate RowLe(x: MasterRow, y: MasterRow) {
    if x.libraryId != y.libraryId then LibraryLe(x.libraryId, y.libraryId) else CaseLe(x.key, y.key)
  }

  ghost function RowIn(libraryId: string): Item -> MasterRow {
    (item: Item) => RowOf(libraryId, item)
  }

  ghost function FileRows(f: SummaryFile): seq<MasterRow> {
    Map(RowIn(f.libraryId), f.Items())
  }

  ghost function AllRows(files: seq<SummaryFile>): seq<MasterRow> {
    if files == [] then [] else AllRows(files[..|files| - 1]) + FileRows(files[|files| - 1])
  }

  ghost function MasterRows(files: seq<SummaryFile>): seq<MasterRow> {
    Sort(RowLe, AllRows(files))
  }

  /** `build_master_rows`. */
  method BuildMasterRows(files: seq<SummaryFile>) returns (rows: seq<MasterRow>)
    ensures rows == MasterRows(files)
  {
    hide RowOf;
    rows := [];
    for i := 0 to |files|
      invariant rows == AllRows(files[..i])
    {
      ghost var earlier := rows;
      var items := files[i].Items();
      for j := 0 to |items|
        invariant rows == earlier + FileRows(files[i])[..j]
      {
        var row := BuildRow(files[i].libraryId, items[j]);
        rows := rows + [row];
        assert FileRows(files[i])[..j + 1] == FileRows(files[i])[..j] + [row];
      }
      assert FileRows(files[i])[..|items|] == FileRows(files[i]);
      assert files[..i + 1][..i] == files[..i];
    }
    assert files[..|files|] == files;
    rows := Sort(RowLe, rows);
  }

  lemma RowOrder()
    ensures TotalPreorder(RowLe)
    ensures forall x, y :: RowLe(x, y) && RowLe(y, x) ==> x.libraryId == y.libraryId && x.key == y.key
  {
    hide LibraryLe; hide CaseLe;
    LibraryOrder();
    CaseOrder();
    forall x, y
      ensures RowLe(x, y) || RowLe(y, x)
    {
      assert LibraryLe(x.libraryId, y.libraryId) || LibraryLe(y.libraryId, x.libraryId);
      assert CaseLe(x.key, y.key) || CaseLe(y.key, x.key);
    }
    forall x, y, z | RowLe(x, y) && RowLe(y, z)
      ensures RowLe(x, z)
    {
      RowTransitive(x, y, z);
    }
  }

  lemma RowTransitive(x: MasterRow, y: MasterRow, z: MasterRow)
    requires RowLe(x, y) && RowLe(y, z)
    ensures RowLe(x, z)
  {
    hide LibraryLe; hide CaseLe;
    LibraryOrder();
    CaseOrder();
    if x.libraryId == y.libraryId == z.libraryId {
      assert CaseLe(x.key, y.key) && CaseLe(y.key, z.key);
    } else if x.libraryId != y.libraryId && y.libraryId != z.libraryId {
      assert LibraryLe(x.libraryId, y.libraryId) && LibraryLe(y.libraryId, z.libraryId);
    }
  }

  /** Rows ascend by library, in the fixed order, then by compiler, server threads and
      processes. */
  lemma {:induction false} MasterRowsAscend(files: seq<SummaryFile>, i: nat, j: nat)
    requires i < j < |MasterRows(files)|
    ensures var x, y := MasterRows(files)[i], MasterRows(files)[j];
            && LibraryLe(x.libraryId, y.libraryId)
            && (x.libraryId == y.libraryId ==> CasesAscend(x.key, y.key))
  {
    hide AllRows; hide LibraryLe; hide CaseLe; hide CasesAscend; hide Sort;
    RowOrder();
    SortSorts(RowLe, AllRows(files));
    LibraryOrder();
    var x, y := MasterRows(files)[i], MasterRows(files)[j];
    assert RowLe(x, y);
    CaseLeMeaning(x.key, y.key);
    assert LibraryLe(x.libraryId, x.libraryId);
  }

  ghost predicate DistinctLibraries(files: seq<SummaryFile>) {
    forall i, j :: 0 <= i < j < |files| ==> files[i].libraryId != files[j].libraryId
  }

  /** No case appears twice in a file. */
  ghost predicate DistinctCases(f: SummaryFile) {
    forall i, j :: 0 <= i < j < |f.Items()| ==> f.Items()[i].key != f.Items()[j].key
  }

  /** Rows that the row order does not tell apart. */
  predicate Ties(x: MasterRow, y: MasterRow) {
    x.libraryId == y.libraryId && x.key == y.key
  }

  /** Files of the same name agree on the cases they share. */
  ghost predicate Consistent(files: seq<SummaryFile>) {
    forall i, j, x, y ::
      0 <= i < j < |files| && x in FileRows(files[i]) && y in FileRows(files[j]) && Ties(x, y) ==> x == y
  }

  lemma DistinctLibrariesAgree(files: seq<SummaryFile>)
    requires DistinctLibraries(files)
    ensures Consistent(files)
  {
    hide RowOf;
    forall i, j, x, y | 0 <= i < j < |files| && x in FileRows(files[i]) && y in FileRows(files[j])
      ensures !Ties(x, y)
    {
      RowIsNamed(files[i], x);
      RowIsNamed(files[j], y);
    }
  }

  lemma RowIsNamed(f: SummaryFile, x: MasterRow)
    requires x in FileRows(f)
    ensures x.libraryId == f.libraryId
  {
  }

  /** Every row stems from a file. */
  lemma {:induction false} RowHasFile(files: seq<SummaryFile>, row: MasterRow) returns (f: nat)
    requires row in AllRows(files)
    ensures f < |files| && row in FileRows(files[f])
  {
    hide FileRows;
    var n := |files| - 1;
    if row in FileRows(files[n]) {
      f := n;
    } else {
      f := RowHasFile(files[..n], row);
    }
  }

  lemma OneRowPerCase(f: SummaryFile, x: MasterRow, y: MasterRow)
    requires DistinctCases(f) && x in FileRows(f) && y in FileRows(f) && Ties(x, y)
    ensures x == y
  {
    hide RowOf;
    var i :| 0 <= i < |FileRows(f)| && FileRows(f)[i] == x;
    var j :| 0 <= j < |FileRows(f)| && FileRows(f)[j] == y;
    RowKey(f.libraryId, f.Items()[i]);
    RowKey(f.libraryId, f.Items()[j]);
  }

  lemma RowKey(libraryId: string, item: Item)
    ensures RowOf(libraryId, item).key == item.key
  {
  }

  lemma {:induction false} AllRowsOfAppend(a: seq<SummaryFile>, b: seq<SummaryFile>)
    ensures AllRows(a + b) == AllRows(a) + AllRows(b)
  {
    hide FileRows;
    if b == [] {
      assert a + b == a;
    } else {
      AllRowsOfAppend(a, b[..|b| - 1]);
      assert (a + b)[..|a + b| - 1] == a + b[..|b| - 1];
    }
  }

  lemma AllRowsOfOne(f: SummaryFile)
    ensures AllRows([f]) == FileRows(f)
  {
  }

  lemma AllRowsMiddle(before: seq<SummaryFile>, f: SummaryFile, after: seq<SummaryFile>)
    ensures AllRows(before + [f] + after) == AllRows(before) + FileRows(f) + AllRows(after)
    ensures AllRows(before + after) == AllRows(before) + AllRows(after)
  {
    AllRowsOfAppend(before + [f], after);
    AllRowsOfAppend(before, [f]);
    AllRowsOfAppend(before, after);
    AllRowsOfOne(f);
  }

  lemma {:induction false} AllRowsForgetOrder(a: seq<SummaryFile>, b: seq<SummaryFile>)
    requires multiset(a) == multiset(b)
    ensures multiset(AllRows(a)) == multiset(AllRows(b))
  {
    hide AllRows; hide FileRows;
    SameLength(a, b);
    if a != [] {
      assert a[0] in multiset(a);
      var before, after := TakeOut(b, a[0]);
      HeadAndTail(a);
      AllRowsForgetOrder(a[1..], before + after);
      AllRowsMiddle(before, a[0], after);
      MoveToFront(AllRows(before), FileRows(a[0]), AllRows(after));
      AllRowsOfAppend([a[0]], a[1..]);
      AllRowsOfOne(a[0]);
      assert [a[0]] + a[1..] == a;
    }
  }

  lemma MoveToFront<T>(a: seq<T>, b: seq<T>, c: seq<T>)
    ensures multiset(a + b + c) == multiset(b) + multiset(a + c)
  {
  }

  lemma RowsAntisymmetric(files: seq<SummaryFile>)
    requires Consistent(files) && forall i :: 0 <= i < |files| ==> DistinctCases(files[i])
    ensures Antisymmetric(RowLe, multiset(AllRows(files)))
  {
    hide AllRows; hide RowLe; hide FileRows; hide DistinctCases;
    RowOrder();
    forall x, y | x in multiset(AllRows(files)) && y in multiset(AllRows(files)) && RowLe(x, y) && RowLe(y, x)
      ensures x == y
    {
      RowsAgree(files, x, y);
    }
  }

  lemma {:induction false} RowsAgree(files: seq<SummaryFile>, x: MasterRow, y: MasterRow)
    requires Consistent(files) && forall i :: 0 <= i < |files| ==> DistinctCases(files[i])
    requires x in AllRows(files) && y in AllRows(files) && Ties(x, y)
    ensures x == y
  {
    hide AllRows; hide FileRows; hide DistinctCases;
    var f := RowHasFile(files, x);
    var g := RowHasFile(files, y);
    if f == g {
      OneRowPerCase(files[f], x, y);
    } else if g < f {
      assert Ties(y, x);
    }
  }

  ghost function Tied(r: MasterRow): MasterRow -> bool {
    (x: MasterRow) => Ties(r, x)
  }

  /** Of the rows that tie with `r`, the one of the file that is read first comes first. */
  lemma FirstFileComesFirst(f: SummaryFile, rest: seq<SummaryFile>, x: MasterRow, r: MasterRow)
    requires DistinctCases(f) && x in FileRows(f) && Ties(r, x)
    ensures Filter(Tied(r), MasterRows([f] + rest)) != [] && Filter(Tied(r), MasterRows([f] + rest))[0] == x
  {
    hide AllRows; hide FileRows; hide RowLe; hide Filter; hide Sort; hide DistinctCases;
    var p := Tied(r);
    AllRowsOfAppend([f], rest);
    AllRowsOfOne(f);
    forall a, b | p(a) && p(b)
      ensures RowLe(a, b)
    {
      TiedRows(a, b);
    }
    SortIsStable(RowLe, p, AllRows([f] + rest));
    FilterOfAppend(p, FileRows(f), AllRows(rest));
    FilterHolds(p, FileRows(f));
    assert x in Filter(p, FileRows(f));
    OneRowPerCase(f, x, Filter(p, FileRows(f))[0]);
  }

  lemma TiedRows(a: MasterRow, b: MasterRow)
    requires Ties(a, b)
    ensures RowLe(a, b)
  {
    CaseOrder();
    assert CaseLe(a.key, a.key);
  }

  // ---------------------------------------------------------------------------
  // The order of the files
  // ---------------------------------------------------------------------------

  predicate FileLe(f: SummaryFile, g: SummaryFile) {
    LibraryLe(f.libraryId, g.libraryId)
  }

  /** The list that `collect_summary_files` makes of the files it finds. */
  function CollectSummaryFiles(found: seq<SummaryFile>): seq<SummaryFile> {
    Sort(FileLe, found)
  }

  ghost function Named(libraryId: string): SummaryFile -> bool {
    (f: SummaryFile) => f.libraryId == libraryId
  }

  /** Rows that tie come from files of one name. */
  lemma {:induction false} TiedRowsAreNamed(files: seq<SummaryFile>, r: MasterRow)
    ensures Filter(Tied(r), AllRows(files)) == Filter(Tied(r), AllRows(Filter(Named(r.libraryId), files)))
  {
    hide FileRows; hide Ties;
    if files != [] {
      var n := |files| - 1;
      var f, earlier := files[n], Filter(Named(r.libraryId), files[..n]);
      TiedRowsAreNamed(files[..n], r);
      FilterOfAppend(Tied(r), AllRows(files[..n]), FileRows(f));
      if f.libraryId == r.libraryId {
        AllRowsOfAppend(earlier, [f]);
        AllRowsOfOne(f);
        FilterOfAppend(Tied(r), AllRows(earlier), FileRows(f));
      } else {
        OtherNamesDoNotTie(f, r);
        assert earlier + [] == earlier;
      }
    }
  }

  lemma OtherNamesDoNotTie(f: SummaryFile, r: MasterRow)
    requires f.libraryId != r.libraryId
    ensures Filter(Tied(r), FileRows(f)) == []
  {
    hide RowOf;
    forall i | 0 <= i < |FileRows(f)|
      ensures !Tied(r)(FileRows(f)[i])
    {
      RowIsNamed(f, FileRows(f)[i]);
    }
    FilterNone(Tied(r), FileRows(f));
  }

  /** Sorting the files by library first makes no difference to the rows: the rows are sorted by
      library themselves, and rows that tie keep the order of their files in both sorts. */
  lemma CollectKeepsRows(found: seq<SummaryFile>)
    ensures MasterRows(CollectSummaryFiles(found)) == MasterRows(found)
    ensures multiset(CollectSummaryFiles(found)) == multiset(found) && Sorted(FileLe, CollectSummaryFiles(found))
  {
    hide AllRows; hide RowLe; hide FileLe; hide Sort; hide Filter; hide Sorted;
    var files := CollectSummaryFiles(found);
    RowOrder();
    FileOrder();
    SortSorts(FileLe, found);
    SortSorts(RowLe, AllRows(files));
    SortSorts(RowLe, AllRows(found));
    forall r
      ensures Filter(Class(RowLe, r), MasterRows(files)) == Filter(Class(RowLe, r), MasterRows(found))
    {
      SameClasses(found, r);
    }
    SortedByClasses(RowLe, MasterRows(files), MasterRows(found));
  }

  lemma FileOrder()
    ensures TotalPreorder(FileLe)
    ensures forall f: SummaryFile, g: SummaryFile :: f.libraryId == g.libraryId ==> FileLe(f, g)
  {
    hide LibraryLe;
    LibraryOrder();
    forall f: SummaryFile, g: SummaryFile | f.libraryId == g.libraryId
      ensures FileLe(f, g)
    {
      assert LibraryLe(f.libraryId, f.libraryId);
    }
    forall f, g
      ensures FileLe(f, g) || FileLe(g, f)
    {
      assert LibraryLe(f.libraryId, g.libraryId) || LibraryLe(g.libraryId, f.libraryId);
    }
    forall f, g, h | FileLe(f, g) && FileLe(g, h)
      ensures FileLe(f, h)
    {
      assert LibraryLe(f.libraryId, g.libraryId) && LibraryLe(g.libraryId, h.libraryId);
    }
  }

  lemma SameClasses(found: seq<SummaryFile>, r: MasterRow)
    ensures Filter(Class(RowLe, r), MasterRows(CollectSummaryFiles(found)))
        == Filter(Class(RowLe, r), MasterRows(found))
  {
    hide AllRows; hide RowLe; hide FileLe; hide Sort; hide Filter; hide Ties;
    var files, p, named := CollectSummaryFiles(found), Class(RowLe, r), Named(r.libraryId);
    RowOrder();
    SortIsStable(RowLe, p, AllRows(files));
    SortIsStable(RowLe, p, AllRows(found));
    ClassIsTied(AllRows(files), r);
    ClassIsTied(AllRows(found), r);
    TiedRowsAreNamed(files, r);
    TiedRowsAreNamed(found, r);
    FileOrder();
    SortIsStable(FileLe, named, found);
  }

  lemma {:induction false} ClassIsTied(rows: seq<MasterRow>, r: MasterRow)
    ensures Filter(Class(RowLe, r), rows) == Filter(Tied(r), rows)
  {
    hide RowLe;
    if rows != [] {
      ClassIsTied(rows[..|rows| - 1], r);
      var x := rows[|rows| - 1];
      RowOrder();
      if Ties(r, x) { TiedRows(r, x); TiedRows(x, r); }
    }
  }

  /** Two files that disagree give two different tables: found in one order or the other, and
      also when the files that are found are sorted by library, as the script does it. */
  lemma {:induction false} ConflictMatters(a: seq<SummaryFile>, i: nat, j: nat, x: MasterRow, y: MasterRow)
    returns (b: seq<SummaryFile>, c: seq<SummaryFile>)
    requires i < j < |a| && DistinctCases(a[i]) && DistinctCases(a[j])
    requires x in FileRows(a[i]) && y in FileRows(a[j]) && Ties(x, y) && x != y
    ensures multiset(b) == multiset(c) == multiset(a) && Sorted(FileLe, b) && Sorted(FileLe, c)
    ensures MasterRows(b) != MasterRows(c)
  {
    hide FileRows; hide MasterRows; hide Filter; hide DistinctCases; hide FileLe; hide Sorted; hide CollectSummaryFiles;
    var f, g, rest := [a[i]], [a[j]], a[..i] + a[i + 1..j] + a[j + 1..];
    assert a == a[..i] + f + a[i + 1..j] + g + a[j + 1..];
    b, c := f + (g + rest), g + (f + rest);
    FirstFileComesFirst(a[i], g + rest, x, x);
    FirstFileComesFirst(a[j], f + rest, y, x);
    CollectKeepsRows(b);
    CollectKeepsRows(c);
    b, c := CollectSummaryFiles(b), CollectSummaryFiles(c);
  }

  /** The order in which files of distinct cases are found does not matter exactly if files of
      the same name agree on the cases they share, whether all orders count or only those that
      are sorted by library. */
  lemma {:induction false} RowsForgetFileOrder(a: seq<SummaryFile>)
    requires forall i :: 0 <= i < |a| ==> DistinctCases(a[i])
    ensures (forall b :: multiset(b) == multiset(a) ==> MasterRows(b) == MasterRows(a)) <==> Consistent(a)
    ensures (forall b :: multiset(b) == multiset(a) && Sorted(FileLe, b) ==> MasterRows(b) == MasterRows(a)) <==>
        Consistent(a)
  {
    hide AllRows; hide FileRows; hide RowLe; hide Sort; hide DistinctCases; hide Ties; hide FileLe;
    if Consistent(a) {
      RowsAntisymmetric(a);
      RowOrder();
      forall b | multiset(b) == multiset(a)
        ensures MasterRows(b) == MasterRows(a)
      {
        AllRowsForgetOrder(a, b);
        SortForgetsOrder(RowLe, AllRows(a), AllRows(b));
      }
    } else {
      var i, j, x, y :| 0 <= i < j < |a| && x in FileRows(a[i]) && y in FileRows(a[j]) && Ties(x, y) && x != y;
      var b, c := ConflictMatters(a, i, j, x, y);
      assert MasterRows(b) != MasterRows(a) || MasterRows(c) != MasterRows(a);
    }
  }

  const HAS_ITEMS: SummaryFile -> bool := (f: SummaryFile) => f.Items() != []

  /** Files without items change nothing, wherever they are; an earlier master summary, which
      has no list `summary`, is one. */
  lemma {:induction false} EmptyFilesAddNothing(files: seq<SummaryFile>)
    ensures AllRows(Filter(HAS_ITEMS, files)) == AllRows(files)
    ensures MasterRows(Filter(HAS_ITEMS, files)) == MasterRows(files)
  {
    hide FileRows;
    if files != [] {
      var n := |files| - 1;
      EmptyFilesAddNothing(files[..n]);
      if HAS_ITEMS(files[n]) {
        AllRowsOfAppend(Filter(HAS_ITEMS, files[..n]), [files[n]]);
        AllRowsOfOne(files[n]);
      } else {
        NothingToShow(files[n]);
        assert Filter(HAS_ITEMS, files[..n]) + [] == Filter(HAS_ITEMS, files[..n]);
      }
    }
  }

  lemma NothingToShow(f: SummaryFile)
    requires f.Items() == []
    ensures FileRows(f) == []
  {
  }

  // ---------------------------------------------------------------------------
  // Files written by a campaign
  // ---------------------------------------------------------------------------

  /** `item` is what a summary file holds for `s`; files written before `elapsed_ms` was
      recorded, which `older` says, may lack its statistics. */
  ghost predicate ItemFor(item: Item, s: CaseSummary, older: bool) {
    && item.key == s.key && item.runs == Some(s.runs)
    && forall m: Metric :: (m in item.stats || (older && m == ElapsedMs))
        && (m in item.stats ==> s.Of(m).Some? && Encodes(item.stats[m], s.Of(m).value))
  }

  ghost predicate FileFor(f: SummaryFile, results: seq<Measurement>) {
    var older := forall i :: 0 <= i < |results| ==> results[i].elapsedMs.None?;
    var summary := Summarize(results);
    && |f.Items()| == |summary|
    && forall i :: 0 <= i < |summary| ==> ItemFor(f.Items()[i], summary[i], older)
  }

  /** Files written by campaigns have distinct cases, as the summary has one entry per case. */
  lemma CampaignFilesHaveDistinctCases(f: SummaryFile, results: seq<Measurement>)
    requires FileFor(f, results)
    ensures DistinctCases(f)
  {
    hide Summarize; hide SortedCases;
    OneSummaryPerCase(results);
    var items, keys := f.Items(), SortedCases(results);
    forall i, j | 0 <= i < j < |items|
      ensures items[i].key != items[j].key
    {
      assert items[i].key == keys[i] && items[j].key == keys[j];
    }
  }

  /** The rows of files that were written by campaigns or have no list `summary` are independent
      of the order exactly if files of one name agree on the cases they share. */
  lemma CampaignRowsForgetFileOrder(a: seq<SummaryFile>, runs: seq<seq<Measurement>>)
    requires |runs| == |a| && forall i :: 0 <= i < |a| ==> a[i].summary.None? || FileFor(a[i], runs[i])
    ensures (forall b :: multiset(b) == multiset(a) ==> MasterRows(b) == MasterRows(a)) <==> Consistent(a)
    ensures DistinctLibraries(Filter(HAS_ITEMS, a)) ==> forall b :: multiset(b) == multiset(a) ==>
        MasterRows(b) == MasterRows(a)
  {
    hide FileFor; hide MasterRows; hide Consistent; hide DistinctLibraries; hide Filter;
    forall i | 0 <= i < |a|
      ensures DistinctCases(a[i])
    {
      if a[i].summary.Some? { CampaignFilesHaveDistinctCases(a[i], runs[i]); }
    }
    RowsForgetFileOrder(a);
    if DistinctLibraries(Filter(HAS_ITEMS, a)) { FilesWithItemsDecide(a); }
  }

  /** Only files with items need different names. */
  lemma FilesWithItemsDecide(a: seq<SummaryFile>)
    requires forall i :: 0 <= i < |a| ==> DistinctCases(a[i])
    requires DistinctLibraries(Filter(HAS_ITEMS, a))
    ensures forall b :: multiset(b) == multiset(a) ==> MasterRows(b) == MasterRows(a)
  {
    hide MasterRows; hide Consistent; hide DistinctLibraries; hide Filter; hide DistinctCases;
    var kept := Filter(HAS_ITEMS, a);
    FilterHolds(HAS_ITEMS, a);
    DistinctLibrariesAgree(kept);
    RowsForgetFileOrder(kept);
    EmptyFilesAddNothing(a);
    forall b | multiset(b) == multiset(a)
      ensures MasterRows(b) == MasterRows(a)
    {
      FilterForgetsOrder(HAS_ITEMS, a, b);
      EmptyFilesAddNothing(b);
    }
  }
}
