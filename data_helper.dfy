/**
 * The vaccination table and its preprocessing (class `VaccinationData`): raw weekly rows
 * reported per country, region, vaccine and age band become one row per
 * (week, country, vaccine, age band) of the national data, with dose percentages.
 */
module DataHelper {
  import opened Wrappers
  import opened Seqs
  import opened IsoCalendar
  import opened YearWeek

  /** The ten age bands the dashboard shows (`target_group_list`). */
  const TargetGroupList: seq<string> :=
    ["Age00_04", "Age05_09", "Age10_14", "Age15_17", "Age18_24",
     "Age25_49", "Age50_59", "Age60_69", "Age70_79", "Age80+"]

  /** The dose-count columns of a row, the ones the grouping sums. */
  datatype DoseCounts = DoseCounts(
    numberDosesReceived: int,
    numberDosesExported: int,
    firstDose: int,
    firstDoseRefused: int,
    secondDose: int,
    doseAdditional1: int,
    unknownDose: int)
  {
    function Get(c: Column): int {
      match c
      case NumberDosesReceived => numberDosesReceived
      case NumberDosesExported => numberDosesExported
      case FirstDose => firstDose
      case FirstDoseRefused => firstDoseRefused
      case SecondDose => secondDose
      case DoseAdditional1 => doseAdditional1
      case UnknownDose => unknownDose
    }
  }

  /** The names of the dose-count columns. */
  datatype Column =
    | NumberDosesReceived | NumberDosesExported | FirstDose | FirstDoseRefused
    | SecondDose | DoseAdditional1 | UnknownDose

  /** One row of the raw weekly file. */
  datatype RawRecord = RawRecord(
    reportingCountry: string,
    region: string,
    targetGroup: string,
    vaccine: string,
    yearWeekIso: string,
    counts: DoseCounts,
    denominator: int,
    population: int)

  /** The columns the table is grouped by. */
  datatype GroupKey = GroupKey(yearWeekIso: string, reportingCountry: string, vaccine: string, targetGroup: string)

  function KeyOf(r: RawRecord): GroupKey {
    GroupKey(r.yearWeekIso, r.reportingCountry, r.vaccine, r.targetGroup)
  }

  /** A kept raw row with its parsed `Year`, `Week` and `Date` (a day number). */
  datatype WeeklyRecord = WeeklyRecord(raw: RawRecord, year: int, week: int, date: int)

  /** One group of the grouping: dose counts summed, the other columns of its last row. */
  datatype WeeklyTotal = WeeklyTotal(
    key: GroupKey,
    counts: DoseCounts,
    denominator: int,
    population: int,
    year: int,
    week: int,
    date: int)

  /** One row of the preprocessed table (`VaccinationData.data`). */
  datatype VaccinationRecord = VaccinationRecord(
    yearWeekIso: string,
    reportingCountry: string,
    vaccine: string,
    targetGroup: string,
    counts: DoseCounts,
    denominator: int,
    population: int,
    year: int,
    week: int,
    date: int,
    firstDosePercent: Option<real>,
    secondDosePercent: Option<real>,
    doseAdditional1Percent: Option<real>)

  /**
   * Why preprocessing raises: a `YearWeekISO` that does not split and convert, a date strptime or
   * the Timestamp range refuses, or no row at all to split.
   */
  datatype PreprocessError =
    | MalformedYearWeek(yearWeekIso: string)
    | DateOutOfRange(year: int, week: int)
    | EmptyTable

  // ---------------------------------------------------------------- age-band labels

  /** The two five-year bands spelled without zero padding get their padded names. */
  function NormalizeTargetGroup(t: string): (r: string)
    ensures t == "Age0_4" ==> r == "Age00_04"
    ensures t == "Age5_9" ==> r == "Age05_09"
    ensures t != "Age0_4" && t != "Age5_9" ==> r == t
    ensures r in TargetGroupList <==> t in TargetGroupList || t == "Age0_4" || t == "Age5_9"
  {
    if t == "Age0_4" then "Age00_04"
    else if t == "Age5_9" then "Age05_09"
    else t
  }

  /**
   * The age-band column renamed in place: every other column stays, each label is renamed by
   * `NormalizeTargetGroup`, a label other than the two unpadded spellings stays, and a renamed
   * label is a listed band.
   */
  function NormalizeLabels(df: seq<RawRecord>): (r: seq<RawRecord>)
    ensures |r| == |df|
    ensures forall i :: 0 <= i < |df| ==>
              r[i] == df[i].(targetGroup := r[i].targetGroup) &&
              r[i].targetGroup == NormalizeTargetGroup(df[i].targetGroup) &&
              (df[i].targetGroup != "Age0_4" && df[i].targetGroup != "Age5_9" ==> r[i] == df[i]) &&
              (df[i].targetGroup == "Age0_4" || df[i].targetGroup == "Age5_9" ==> r[i].targetGroup in TargetGroupList)
  {
    seq(|df|, i requires 0 <= i < |df| => df[i].(targetGroup := NormalizeTargetGroup(df[i].targetGroup)))
  }

  lemma NormalizeTargetGroupIdempotent(t: string)
    ensures NormalizeTargetGroup(NormalizeTargetGroup(t)) == NormalizeTargetGroup(t)
  {
  }

  /** Renaming the labels a second time changes nothing. */
  lemma NormalizeLabelsIdempotent(df: seq<RawRecord>)
    ensures NormalizeLabels(NormalizeLabels(df)) == NormalizeLabels(df)
  {
    var once := NormalizeLabels(df);
    forall i | 0 <= i < |df|
      ensures NormalizeLabels(once)[i] == once[i]
    {
      NormalizeTargetGroupIdempotent(df[i].targetGroup);
    }
  }

  lemma NormalizeLabelsAppend(a: seq<RawRecord>, b: seq<RawRecord>)
    ensures NormalizeLabels(a + b) == NormalizeLabels(a) + NormalizeLabels(b)
  {
  }

  // ---------------------------------------------------------------- national rows

  /** A row is kept when it is national (`ReportingCountry == Region`) and in a listed age band. */
  predicate Keep(r: RawRecord) {
    r.reportingCountry == r.region && r.targetGroup in TargetGroupList
  }

  function SelectNational(df: seq<RawRecord>): (r: seq<RawRecord>)
    ensures forall x :: x in r <==> x in df && Keep(x)
    ensures |r| <= |df|
  {
    if df == [] then []
    else (if Keep(df[0]) then [df[0]] else []) + SelectNational(df[1..])
  }

  lemma {:induction false} SelectNationalAppend(a: seq<RawRecord>, b: seq<RawRecord>)
    ensures SelectNational(a + b) == SelectNational(a) + SelectNational(b)
  {
    if a == [] {
      assert a + b == b;
    } else {
      assert (a + b)[0] == a[0];
      assert (a + b)[1..] == a[1..] + b;
      SelectNationalAppend(a[1..], b);
    }
  }

  // ---------------------------------------------------------------- Year, Week and Date

  /** The first and the last midnight pandas' nanosecond Timestamp holds: 1677-09-22 and 2262-04-11. */
  const FirstTimestampDay: int := 612412
  const LastTimestampDay: int := 825914

  /**
   * Year, Week and the Monday of that ISO week for one row. strptime's `%V` takes weeks 0 to 53
   * (week 0 runs back into the year before, week 53 of a 52-week year on into the next), and the
   * date must fit pandas' nanosecond Timestamp.
   */
  function AnnotateRow(r: RawRecord): (res: Result<WeeklyRecord, PreprocessError>)
    ensures res.Success? ==>
              res.value.raw == r &&
              ParseYearWeek(r.yearWeekIso) == Some((res.value.year, res.value.week)) &&
              Weekday(res.value.date) == Monday &&
              FirstTimestampDay <= res.value.date <= LastTimestampDay &&
              (1 <= res.value.week <= WeeksInIsoYear(res.value.year) ==>
                 InIsoWeek(res.value.date, res.value.year, res.value.week)) &&
              (res.value.week > WeeksInIsoYear(res.value.year) ==>
                 res.value.date == IsoWeek1Monday(res.value.year + 1) &&
                 InIsoWeek(res.value.date, res.value.year + 1, 1)) &&
              (res.value.week == 0 ==>
                 InIsoWeek(res.value.date, res.value.year - 1, WeeksInIsoYear(res.value.year - 1)))
    ensures res.Failure? <==>
              ParseYearWeek(r.yearWeekIso).None? ||
              var (y, w) := ParseYearWeek(r.yearWeekIso).value;
              !(w <= 53 && FirstTimestampDay <= MondayOfIsoWeek(y, w) <= LastTimestampDay)
  {
    match ParseYearWeek(r.yearWeekIso)
    case None => Failure(MalformedYearWeek(r.yearWeekIso))
    case Some((y, w)) =>
      var d := MondayOfIsoWeek(y, w);
      if w <= 53 && FirstTimestampDay <= d <= LastTimestampDay then
        MondayOfIsoWeekPlaced(y, w);
        Success(WeeklyRecord(r, y, w, d))
      else Failure(DateOutOfRange(y, w))
  }

  /** All the values of `rs`, or the first failure among them. */
  function Collect<T, E>(rs: seq<Result<T, E>>): (res: Result<seq<T>, E>)
    ensures res.Success? <==> forall i :: 0 <= i < |rs| ==> rs[i].Success?
    ensures res.Success? ==> |res.value| == |rs| && forall i :: 0 <= i < |rs| ==> res.value[i] == rs[i].value
  {
    if rs == [] then Success([])
    else
      match rs[0]
      case Failure(e) => Failure(e)
      case Success(w) =>
        match Collect(rs[1..])
        case Failure(e) =>
          assert exists i :: 0 <= i < |rs[1..]| && rs[1..][i].Failure?;
          Failure(e)
        case Success(ws) =>
          assert forall i :: 1 <= i < |rs| ==> rs[i] == rs[1..][i - 1];
          Success([w] + ws)
  }

  /**
   * The whole column is converted at once: one bad row fails the table, and so does an empty
   * table, whose split yields no column to assign to Year and Week.
   */
  function Annotate(rows: seq<RawRecord>): (res: Result<seq<WeeklyRecord>, PreprocessError>)
    ensures res.Success? <==> rows != [] && forall i :: 0 <= i < |rows| ==> AnnotateRow(rows[i]).Success?
    ensures res.Success? ==>
              |res.value| == |rows| &&
              forall i :: 0 <= i < |rows| ==> res.value[i] == AnnotateRow(rows[i]).value
  {
    if rows == [] then Failure(EmptyTable)
    else
      var rs := seq(|rows|, i requires 0 <= i < |rows| => AnnotateRow(rows[i]));
      assert forall i :: 0 <= i < |rows| ==> rs[i] == AnnotateRow(rows[i]);
      Collect(rs)
  }

  // ---------------------------------------------------------------- grouping

  /** Column `c` summed over a run of rows. */
  function SumWeekly(rows: seq<WeeklyRecord>, c: Column): int {
    if rows == [] then 0 else rows[0].raw.counts.Get(c) + SumWeekly(rows[1..], c)
  }

  /** The dose counts of a run of rows, column by column. */
  function SumCounts(rows: seq<WeeklyRecord>): (r: DoseCounts)
    ensures forall c :: r.Get(c) == SumWeekly(rows, c)
  {
    DoseCounts(
      SumWeekly(rows, NumberDosesReceived), SumWeekly(rows, NumberDosesExported),
      SumWeekly(rows, FirstDose), SumWeekly(rows, FirstDoseRefused), SumWeekly(rows, SecondDose),
      SumWeekly(rows, DoseAdditional1), SumWeekly(rows, UnknownDose))
  }

  /** The rows of group `k`, in table order. */
  function WithKey(rows: seq<WeeklyRecord>, k: GroupKey): (r: seq<WeeklyRecord>)
    ensures forall x :: x in r <==> x in rows && KeyOf(x.raw) == k
  {
    if rows == [] then []
    else (if KeyOf(rows[0].raw) == k then [rows[0]] else []) + WithKey(rows[1..], k)
  }

  /** The rows outside group `k`, in table order. */
  function WithoutKey(rows: seq<WeeklyRecord>, k: GroupKey): (r: seq<WeeklyRecord>)
    ensures forall x :: x in r <==> x in rows && KeyOf(x.raw) != k
  {
    if rows == [] then []
    else (if KeyOf(rows[0].raw) != k then [rows[0]] else []) + WithoutKey(rows[1..], k)
  }

  /** Splitting off a group loses no row and no dose. */
  lemma {:induction false} Partition(rows: seq<WeeklyRecord>, k: GroupKey, c: Column)
    ensures |WithKey(rows, k)| + |WithoutKey(rows, k)| == |rows|
    ensures SumWeekly(rows, c) == SumWeekly(WithKey(rows, k), c) + SumWeekly(WithoutKey(rows, k), c)
  {
    if rows != [] {
      var x, rest := rows[0], rows[1..];
      Partition(rest, k, c);
      var inK, outK := WithKey(rest, k), WithoutKey(rest, k);
      assert SumWeekly(rows, c) == x.raw.counts.Get(c) + SumWeekly(rest, c);
      if KeyOf(x.raw) == k {
        assert WithKey(rows, k) == [x] + inK;
        assert ([x] + inK)[1..] == inK;
        assert SumWeekly([x] + inK, c) == x.raw.counts.Get(c) + SumWeekly(inK, c);
        assert WithoutKey(rows, k) == outK;
      } else {
        assert WithoutKey(rows, k) == [x] + outK;
        assert ([x] + outK)[1..] == outK;
        assert SumWeekly([x] + outK, c) == x.raw.counts.Get(c) + SumWeekly(outK, c);
        assert WithKey(rows, k) == inK;
      }
    }
  }

  /** Taking away another group leaves group `k` as it was. */
  lemma {:induction false} WithKeyOfWithout(rows: seq<WeeklyRecord>, k: GroupKey, other: GroupKey)
    requires k != other
    ensures WithKey(WithoutKey(rows, other), k) == WithKey(rows, k)
  {
    if rows != [] {
      var x, rest := rows[0], rows[1..];
      WithKeyOfWithout(rest, k, other);
      var w := WithoutKey(rest, other);
      if KeyOf(x.raw) != other {
        assert WithoutKey(rows, other) == [x] + w;
        assert ([x] + w)[0] == x && ([x] + w)[1..] == w;
        assert WithKey([x] + w, k) == (if KeyOf(x.raw) == k then [x] else []) + WithKey(w, k);
      } else {
        assert WithoutKey(rows, other) == w;
        assert WithKey(rows, k) == WithKey(rest, k);
      }
    }
  }

  /** Group `k`'s row: summed dose counts, and the rest from the group's last row. */
  function Aggregate(k: GroupKey, group: seq<WeeklyRecord>): (r: WeeklyTotal)
    requires |group| > 0
    ensures r.key == k
    ensures forall c :: r.counts.Get(c) == SumWeekly(group, c)
    ensures var last := group[|group| - 1];
            (r.denominator, r.population, r.year, r.week, r.date) ==
            (last.raw.denominator, last.raw.population, last.year, last.week, last.date)
  {
    var last := group[|group| - 1];
    WeeklyTotal(k, SumCounts(group), last.raw.denominator, last.raw.population,
                last.year, last.week, last.date)
  }

  /** Group-by on (YearWeekISO, ReportingCountry, Vaccine, TargetGroup), groups in order of first row. */
  function GroupRows(rows: seq<WeeklyRecord>): (r: seq<WeeklyTotal>)
    ensures |r| <= |rows|
    ensures r == [] <==> rows == []
    decreases |rows|
  {
    if rows == [] then []
    else
      var k := KeyOf(rows[0].raw);
      Partition(rows, k, FirstDose);
      assert rows[0] in WithKey(rows, k);
      [Aggregate(k, WithKey(rows, k))] + GroupRows(WithoutKey(rows, k))
  }

  /** Every grouped row's key is the key of some row of the table. */
  lemma {:induction false} GroupRowsKeysFromRows(rows: seq<WeeklyRecord>)
    ensures forall t :: t in GroupRows(rows) ==> exists x :: x in rows && KeyOf(x.raw) == t.key
    decreases |rows|
  {
    if rows != [] {
      var k := KeyOf(rows[0].raw);
      var rest := WithoutKey(rows, k);
      Partition(rows, k, FirstDose);
      assert rows[0] in WithKey(rows, k);
      GroupRowsKeysFromRows(rest);
    }
  }

  /** Every row's key is the key of some grouped row. */
  lemma {:induction false} GroupRowsCoverRows(rows: seq<WeeklyRecord>)
    ensures forall x :: x in rows ==> exists t :: t in GroupRows(rows) && t.key == KeyOf(x.raw)
    decreases |rows|
  {
    if rows != [] {
      var k := KeyOf(rows[0].raw);
      var rest := WithoutKey(rows, k);
      Partition(rows, k, FirstDose);
      assert rows[0] in WithKey(rows, k);
      GroupRowsCoverRows(rest);
      var head := Aggregate(k, WithKey(rows, k));
      assert GroupRows(rows) == [head] + GroupRows(rest);
      forall x | x in rows ensures exists t :: t in GroupRows(rows) && t.key == KeyOf(x.raw) {
        if KeyOf(x.raw) == k {
          assert head in GroupRows(rows);
        } else {
          assert x in rest;
        }
      }
    }
  }

  function KeysOf(ts: seq<WeeklyTotal>): (ks: seq<GroupKey>)
    ensures |ks| == |ts| && forall i :: 0 <= i < |ts| ==> ks[i] == ts[i].key
  {
    if ts == [] then [] else [ts[0].key] + KeysOf(ts[1..])
  }

  /** No two grouped rows share a key: exactly one row per group. */
  lemma {:induction false} GroupRowsDistinct(rows: seq<WeeklyRecord>)
    ensures NoDuplicates(KeysOf(GroupRows(rows)))
    decreases |rows|
  {
    if rows != [] {
      var k := KeyOf(rows[0].raw);
      var rest := WithoutKey(rows, k);
      Partition(rows, k, FirstDose);
      assert rows[0] in WithKey(rows, k);
      GroupRowsDistinct(rest);
      GroupRowsKeysFromRows(rest);
      var tail := GroupRows(rest);
      var head := Aggregate(k, WithKey(rows, k));
      assert GroupRows(rows) == [head] + tail;
      assert KeysOf([head] + tail) == [k] + KeysOf(tail) by {
        assert ([head] + tail)[1..] == tail;
      }
      assert k !in KeysOf(tail) by {
        forall j | 0 <= j < |tail| ensures KeysOf(tail)[j] != k {
          assert tail[j] in tail;
        }
      }
      NoDuplicatesCons(k, KeysOf(tail));
    }
  }

  /** Each grouped row sums its group's dose counts and takes the other columns from its last row. */
  lemma {:induction false} GroupRowsAggregates(rows: seq<WeeklyRecord>)
    ensures forall t :: t in GroupRows(rows) ==>
              |WithKey(rows, t.key)| > 0 && t == Aggregate(t.key, WithKey(rows, t.key))
    ensures forall t, c :: t in GroupRows(rows) ==> t.counts.Get(c) == SumWeekly(WithKey(rows, t.key), c)
    decreases |rows|
  {
    if rows != [] {
      var k := KeyOf(rows[0].raw);
      var rest := WithoutKey(rows, k);
      Partition(rows, k, FirstDose);
      assert rows[0] in WithKey(rows, k);
      GroupRowsAggregates(rest);
      GroupRowsKeysFromRows(rest);
      forall t | t in GroupRows(rest)
        ensures |WithKey(rows, t.key)| > 0 && t == Aggregate(t.key, WithKey(rows, t.key))
      {
        WithKeyOfWithout(rows, t.key, k);
      }
    }
  }

  function SumGrouped(ts: seq<WeeklyTotal>, c: Column): int {
    if ts == [] then 0 else ts[0].counts.Get(c) + SumGrouped(ts[1..], c)
  }

  /** Grouping conserves every dose count: the groups' sums add up to the table's. */
  lemma {:induction false} GroupRowsConservesDoses(rows: seq<WeeklyRecord>, c: Column)
    ensures SumGrouped(GroupRows(rows), c) == SumWeekly(rows, c)
    decreases |rows|
  {
    if rows != [] {
      var k := KeyOf(rows[0].raw);
      Partition(rows, k, c);
      assert rows[0] in WithKey(rows, k);
      GroupRowsConservesDoses(WithoutKey(rows, k), c);
    }
  }

  // ---------------------------------------------------------------- vaccine names and percentages

  /** Vaccine codes and the names the dashboard shows for them. */
  const VaccineNames: map<string, string> := map[
    "AZ" := "AstraZeneca",
    "BECNBG" := "Beijing",
    "BHACOV" := "Covaxin",
    "COM" := "Pfizer",
    "MOD" := "Moderna",
    "JANSS" := "Janssen",
    "SPU" := "Sputnik V",
    "UNK" := "Unknown"]

  /**
   * A listed code becomes its name; any other code is kept as it is. No listed code is left
   * afterwards, so renaming again would change nothing.
   */
  function VaccineName(code: string): (r: string)
    ensures r != code <==> code in VaccineNames
    ensures code in VaccineNames ==> r == VaccineNames[code]
    ensures code in VaccineNames ==> r in VaccineNames.Values
    ensures r !in VaccineNames
  {
    if code in VaccineNames then VaccineNames[code] else code
  }

  /** Two different codes keep different names unless an unlisted code already is a name. */
  lemma VaccineNameInjective(a: string, b: string)
    requires a !in VaccineNames.Values && b !in VaccineNames.Values
    requires VaccineName(a) == VaccineName(b)
    ensures a == b
  {
  }

  /** `p` is `count / denominator * 100`, missing (NaN or infinity) exactly when the denominator is 0. */
  predicate IsPercent(p: Option<real>, count: int, denominator: int) {
    (p.None? <==> denominator == 0) &&
    (p.Some? ==> p.value * denominator as real == 100.0 * count as real)
  }

  function DosePercent(count: int, denominator: int): (p: Option<real>)
    ensures IsPercent(p, count, denominator)
  {
    if denominator == 0 then None
    else Some(count as real / denominator as real * 100.0)
  }

  /** Vaccine renaming and the three percentage columns, applied to a grouped row. */
  function Finish(t: WeeklyTotal): (r: VaccinationRecord)
    ensures (r.yearWeekIso, r.reportingCountry, r.targetGroup) ==
            (t.key.yearWeekIso, t.key.reportingCountry, t.key.targetGroup)
    ensures r.vaccine == VaccineName(t.key.vaccine)
    ensures (r.counts, r.denominator, r.population, r.year, r.week, r.date) ==
            (t.counts, t.denominator, t.population, t.year, t.week, t.date)
    ensures IsPercent(r.firstDosePercent, t.counts.firstDose, t.denominator)
    ensures IsPercent(r.secondDosePercent, t.counts.secondDose, t.denominator)
    ensures IsPercent(r.doseAdditional1Percent, t.counts.doseAdditional1, t.denominator)
  {
    VaccinationRecord(
      t.key.yearWeekIso, t.key.reportingCountry, VaccineName(t.key.vaccine), t.key.targetGroup,
      t.counts, t.denominator, t.population, t.year, t.week, t.date,
      DosePercent(t.counts.firstDose, t.denominator),
      DosePercent(t.counts.secondDose, t.denominator),
      DosePercent(t.counts.doseAdditional1, t.denominator))
  }

  /** The finishing step applied to every grouped row, in order. */
  function FinishAll(ts: seq<WeeklyTotal>): (r: seq<VaccinationRecord>)
    ensures |r| == |ts| && forall i :: 0 <= i < |ts| ==> r[i] == Finish(ts[i])
  {
    if ts == [] then [] else [Finish(ts[0])] + FinishAll(ts[1..])
  }

  // ---------------------------------------------------------------- the pipeline

  /** The rows the pipeline works on: labels normalised, then the national listed ones. */
  function KeptRows(df: seq<RawRecord>): (r: seq<RawRecord>)
    ensures forall y :: y in r ==>
              Keep(y) && exists x :: x in df && y == x.(targetGroup := NormalizeTargetGroup(x.targetGroup))
    ensures forall x :: x in df && x.reportingCountry == x.region && NormalizeTargetGroup(x.targetGroup) in TargetGroupList ==>
              x.(targetGroup := NormalizeTargetGroup(x.targetGroup)) in r
  {
    var n := NormalizeLabels(df);
    assert forall y :: y in n ==> exists x :: x in df && y == x.(targetGroup := NormalizeTargetGroup(x.targetGroup)) by {
      forall y | y in n ensures exists x :: x in df && y == x.(targetGroup := NormalizeTargetGroup(x.targetGroup)) {
        var m :| 0 <= m < |n| && n[m] == y;
        assert df[m] in df;
      }
    }
    assert forall x :: x in df ==> x.(targetGroup := NormalizeTargetGroup(x.targetGroup)) in n by {
      forall x | x in df ensures x.(targetGroup := NormalizeTargetGroup(x.targetGroup)) in n {
        var m :| 0 <= m < |df| && df[m] == x;
        assert n[m] == x.(targetGroup := NormalizeTargetGroup(x.targetGroup));
      }
    }
    SelectNational(n)
  }

  /** `preprocess` as a function of the raw table. */
  function PreprocessTable(df: seq<RawRecord>): (res: Result<seq<VaccinationRecord>, PreprocessError>)
    ensures res.Failure? <==> KeptRows(df) == [] || exists x :: x in KeptRows(df) && AnnotateRow(x).Failure?
  {
    match Annotate(KeptRows(df))
    case Failure(e) => Failure(e)
    case Success(ws) => Success(FinishAll(GroupRows(ws)))
  }

  function SumRaw(rows: seq<RawRecord>, c: Column): int {
    if rows == [] then 0 else rows[0].counts.Get(c) + SumRaw(rows[1..], c)
  }

  function SumColumn(rows: seq<VaccinationRecord>, c: Column): int {
    if rows == [] then 0 else rows[0].counts.Get(c) + SumColumn(rows[1..], c)
  }

  lemma {:induction false} AnnotateKeepsCounts(rows: seq<RawRecord>, ws: seq<WeeklyRecord>, c: Column)
    requires |ws| == |rows| && forall i :: 0 <= i < |rows| ==> ws[i].raw == rows[i]
    ensures SumWeekly(ws, c) == SumRaw(rows, c)
  {
    if rows != [] {
      AnnotateKeepsCounts(rows[1..], ws[1..], c);
    }
  }

  lemma {:induction false} FinishKeepsCounts(ts: seq<WeeklyTotal>, c: Column)
    ensures SumColumn(FinishAll(ts), c) == SumGrouped(ts, c)
  {
    if ts != [] {
      assert FinishAll(ts)[1..] == FinishAll(ts[1..]);
      FinishKeepsCounts(ts[1..], c);
    }
  }

  /** Every dose count of the kept national rows ends up in the table, summed, none lost or added. */
  lemma PreprocessConservesDoses(df: seq<RawRecord>, c: Column)
    requires PreprocessTable(df).Success?
    ensures SumColumn(PreprocessTable(df).value, c) == SumRaw(KeptRows(df), c)
  {
    var ws := Annotate(KeptRows(df)).value;
    AnnotateKeepsCounts(KeptRows(df), ws, c);
    GroupRowsConservesDoses(ws, c);
    FinishKeepsCounts(GroupRows(ws), c);
  }

  lemma AnnotatedRowOrigin(rows: seq<RawRecord>, w: WeeklyRecord)
    requires Annotate(rows).Success? && w in Annotate(rows).value
    ensures w.raw in rows && AnnotateRow(w.raw) == Success(w)
  {
    var ws := Annotate(rows).value;
    var j :| 0 <= j < |ws| && ws[j] == w;
    assert rows[j] in rows;
  }

  lemma AnnotatedRowFor(rows: seq<RawRecord>, y: RawRecord)
    requires Annotate(rows).Success? && y in rows
    ensures exists w :: w in Annotate(rows).value && w.raw == y
  {
    var ws := Annotate(rows).value;
    var j :| 0 <= j < |rows| && rows[j] == y;
    assert ws[j] in ws;
  }

  /** A grouped row carries the key, Year, Week and Date of a row of its group (its last). */
  lemma GroupedRowOrigin(ws: seq<WeeklyRecord>, t: WeeklyTotal)
    requires t in GroupRows(ws)
    ensures exists w :: w in ws && KeyOf(w.raw) == t.key && t.year == w.year && t.week == w.week && t.date == w.date
  {
    GroupRowsAggregates(ws);
    var g := WithKey(ws, t.key);
    var last := g[|g| - 1];
    assert last in g;
  }

  /** A grouped row's key is that of a kept raw row, taken back to the raw table. */
  lemma GroupedRowFromRaw(df: seq<RawRecord>, t: WeeklyTotal)
    requires Annotate(KeptRows(df)).Success? && t in GroupRows(Annotate(KeptRows(df)).value)
    ensures t.key.targetGroup in TargetGroupList
    ensures ParseYearWeek(t.key.yearWeekIso) == Some((t.year, t.week))
    ensures Weekday(t.date) == Monday
    ensures 1 <= t.week <= WeeksInIsoYear(t.year) ==> InIsoWeek(t.date, t.year, t.week)
    ensures exists x :: x in df &&
              x.reportingCountry == x.region == t.key.reportingCountry &&
              NormalizeTargetGroup(x.targetGroup) == t.key.targetGroup &&
              x.yearWeekIso == t.key.yearWeekIso && x.vaccine == t.key.vaccine
  {
    var kept := KeptRows(df);
    var ws := Annotate(kept).value;
    GroupedRowOrigin(ws, t);
    var w :| w in ws && KeyOf(w.raw) == t.key && t.year == w.year && t.week == w.week && t.date == w.date;
    AnnotatedRowOrigin(kept, w);
  }

  /**
   * Every row of the table comes from national raw rows of a listed age band with the row's
   * week, country, band and vaccine, and its Year, Week and Date are those of its week.
   */
  lemma PreprocessRowsAreNational(df: seq<RawRecord>, o: VaccinationRecord)
    requires PreprocessTable(df).Success? && o in PreprocessTable(df).value
    ensures o.targetGroup in TargetGroupList
    ensures ParseYearWeek(o.yearWeekIso) == Some((o.year, o.week))
    ensures Weekday(o.date) == Monday
    ensures 1 <= o.week <= WeeksInIsoYear(o.year) ==> InIsoWeek(o.date, o.year, o.week)
    ensures exists x :: x in df &&
              x.reportingCountry == x.region == o.reportingCountry &&
              NormalizeTargetGroup(x.targetGroup) == o.targetGroup &&
              x.yearWeekIso == o.yearWeekIso &&
              VaccineName(x.vaccine) == o.vaccine
  {
    var ts := GroupRows(Annotate(KeptRows(df)).value);
    assert o in FinishAll(ts);
    var i :| 0 <= i < |ts| && o == FinishAll(ts)[i];
    var t := ts[i];
    assert t in ts && o == Finish(t);
    GroupedRowFromRaw(df, t);
    var x :| x in df && x.reportingCountry == x.region == t.key.reportingCountry &&
             NormalizeTargetGroup(x.targetGroup) == t.key.targetGroup &&
             x.yearWeekIso == t.key.yearWeekIso && x.vaccine == t.key.vaccine;
    assert VaccineName(x.vaccine) == o.vaccine;
  }

  /** Every national raw row of a listed age band is represented in the table. */
  lemma PreprocessKeepsNationalRows(df: seq<RawRecord>, x: RawRecord)
    requires PreprocessTable(df).Success?
    requires x in df && x.reportingCountry == x.region && NormalizeTargetGroup(x.targetGroup) in TargetGroupList
    ensures exists o :: o in PreprocessTable(df).value &&
              o.yearWeekIso == x.yearWeekIso && o.reportingCountry == x.reportingCountry &&
              o.targetGroup == NormalizeTargetGroup(x.targetGroup) && o.vaccine == VaccineName(x.vaccine)
  {
    var kept := KeptRows(df);
    var ws := Annotate(kept).value;
    var y := x.(targetGroup := NormalizeTargetGroup(x.targetGroup));
    AnnotatedRowFor(kept, y);
    var w :| w in ws && w.raw == y;
    GroupRowsCoverRows(ws);
    var t :| t in GroupRows(ws) && t.key == KeyOf(y);
    FinishedRowIn(df, t);
    var o := Finish(t);
    assert o.yearWeekIso == x.yearWeekIso && o.reportingCountry == x.reportingCountry;
  }

  /** The finished form of every grouped row is a row of the table. */
  lemma FinishedRowIn(df: seq<RawRecord>, t: WeeklyTotal)
    requires Annotate(KeptRows(df)).Success? && t in GroupRows(Annotate(KeptRows(df)).value)
    ensures PreprocessTable(df).Success? && Finish(t) in PreprocessTable(df).value
  {
    var ts := GroupRows(Annotate(KeptRows(df)).value);
    var i :| 0 <= i < |ts| && ts[i] == t;
    assert FinishAll(ts)[i] == Finish(t);
  }

  /**
   * One row per (YearWeekISO, ReportingCountry, Vaccine, TargetGroup), provided no unlisted
   * vaccine code is itself one of the names the listed codes are renamed to.
   */
  lemma PreprocessOneRowPerGroup(df: seq<RawRecord>)
    requires PreprocessTable(df).Success?
    requires forall x :: x in df ==> x.vaccine !in VaccineNames.Values
    ensures var out := PreprocessTable(df).value;
            forall i, j :: 0 <= i < j < |out| ==>
              (out[i].yearWeekIso, out[i].reportingCountry, out[i].vaccine, out[i].targetGroup) !=
              (out[j].yearWeekIso, out[j].reportingCountry, out[j].vaccine, out[j].targetGroup)
  {
    var ts := GroupRows(Annotate(KeptRows(df)).value);
    var out := PreprocessTable(df).value;
    GroupRowsDistinct(Annotate(KeptRows(df)).value);
    forall i, j | 0 <= i < j < |out|
      ensures (out[i].yearWeekIso, out[i].reportingCountry, out[i].vaccine, out[i].targetGroup) !=
              (out[j].yearWeekIso, out[j].reportingCountry, out[j].vaccine, out[j].targetGroup)
    {
      assert KeysOf(ts)[i] != KeysOf(ts)[j];
      assert out[i] == Finish(ts[i]) && out[j] == Finish(ts[j]);
      assert ts[i] in ts && ts[j] in ts;
      GroupedRowFromRaw(df, ts[i]);
      GroupedRowFromRaw(df, ts[j]);
      if VaccineName(ts[i].key.vaccine) == VaccineName(ts[j].key.vaccine) {
        VaccineNameInjective(ts[i].key.vaccine, ts[j].key.vaccine);
      }
    }
  }

  /** Preprocessing the stored table again, after its labels were normalised, gives the same result. */
  lemma PreprocessIdempotent(df: seq<RawRecord>)
    ensures PreprocessTable(NormalizeLabels(df)) == PreprocessTable(df)
  {
    NormalizeLabelsIdempotent(df);
  }

  /** A sub-national row, wherever it stands, has no effect on the result. */
  lemma SubnationalRowIgnored(a: seq<RawRecord>, x: RawRecord, b: seq<RawRecord>)
    requires x.reportingCountry != x.region
    ensures PreprocessTable(a + [x] + b) == PreprocessTable(a + b)
  {
    var na, nx, nb := NormalizeLabels(a), NormalizeLabels([x]), NormalizeLabels(b);
    assert NormalizeLabels(a + [x] + b) == na + nx + nb by {
      NormalizeLabelsAppend(a + [x], b);
      NormalizeLabelsAppend(a, [x]);
    }
    assert NormalizeLabels(a + b) == na + nb by {
      NormalizeLabelsAppend(a, b);
    }
    assert SelectNational(nx) == [] by {
      assert !Keep(nx[0]);
      assert nx[1..] == [];
    }
    SelectNationalAppend(na + nx, nb);
    SelectNationalAppend(na, nx);
    SelectNationalAppend(na, nb);
    assert SelectNational(na + nx) == SelectNational(na);
    assert KeptRows(a + [x] + b) == KeptRows(a + b);
  }

  // Two rows for Spain, week 1 of 2021, age band "Age0_4", code COM: a national row with 100
  // first doses out of 1000 and a regional one.
  const ExampleNational: RawRecord :=
    RawRecord("ES", "ES", "Age0_4", "COM", "2021-W01", DoseCounts(0, 0, 100, 0, 0, 0, 0), 1000, 47000000)
  const ExampleRegional: RawRecord :=
    RawRecord("ES", "MD", "Age0_4", "COM", "2021-W01", DoseCounts(0, 0, 50, 0, 0, 0, 0), 1000, 6700000)
  const ExampleKept: RawRecord := ExampleNational.(targetGroup := "Age00_04")
  const ExampleWeekly: WeeklyRecord := WeeklyRecord(ExampleKept, 2021, 1, 737794)

  lemma ExampleKeptRows()
    ensures KeptRows([ExampleNational, ExampleRegional]) == [ExampleKept]
  {
    var dropped := ExampleRegional.(targetGroup := "Age00_04");
    assert NormalizeLabels([ExampleNational, ExampleRegional]) == [ExampleKept, dropped];
    assert Keep(ExampleKept) && !Keep(dropped) by {
      assert "Age00_04" == TargetGroupList[0];
      assert "ES"[1] != "MD"[1];
    }
    assert [ExampleKept, dropped][1..] == [dropped];
    assert SelectNational([dropped]) == [];
  }

  lemma ExampleParse()
    ensures ParseYearWeek("2021-W01") == Some((2021, 1))
  {
    assert FormatYearWeek(2021, 1, 'W') == "2021-W01";
    YearWeekRoundTrip(2021, 1, 'W');
  }

  lemma ExampleMonday()
    ensures MondayOfIsoWeek(2021, 1) == 737794
  {
    assert 2020 / 4 == 505 && 2020 / 100 == 20 && 2020 / 400 == 5;
    assert Jan4(2021) == 737794;
    assert 737800 == 7 * 105400;
  }

  lemma ExampleAnnotateRow()
    ensures AnnotateRow(ExampleKept) == Success(ExampleWeekly)
  {
    ExampleParse();
    ExampleMonday();
    assert FirstTimestampDay <= 737794 <= LastTimestampDay;
  }

  lemma ExampleAnnotate()
    ensures Annotate([ExampleKept]) == Success([ExampleWeekly])
  {
    ExampleAnnotateRow();
    AnnotateSingle(ExampleKept, ExampleWeekly);
  }

  /** A one-row table converts as its row does. */
  lemma AnnotateSingle(x: RawRecord, w: WeeklyRecord)
    requires AnnotateRow(x) == Success(w)
    ensures Annotate([x]) == Success([w])
  {
    var r := Annotate([x]);
    assert [x][0] == x;
    assert r.Success? && |r.value| == 1 && r.value[0] == w;
    assert r.value == [w];
  }

  lemma ExampleGroup()
    ensures FinishAll(GroupRows([ExampleWeekly])) ==
            [VaccinationRecord("2021-W01", "ES", "Pfizer", "Age00_04", DoseCounts(0, 0, 100, 0, 0, 0, 0),
                               1000, 47000000, 2021, 1, 737794, Some(10.0), Some(0.0), Some(0.0))]
  {
    var w, k := ExampleWeekly, KeyOf(ExampleKept);
    assert WithKey([w], k) == [w];
    assert WithoutKey([w], k) == [];
    assert GroupRows([w]) == [Aggregate(k, [w])];
    assert SumCounts([w]) == ExampleKept.counts by {
      assert [w][1..] == [];
      forall c ensures SumWeekly([w], c) == ExampleKept.counts.Get(c) {
        assert SumWeekly([w], c) == w.raw.counts.Get(c) + SumWeekly([], c);
      }
      var r := SumCounts([w]);
      assert r.firstDose == r.Get(FirstDose) == 100;
      assert r.numberDosesReceived == r.Get(NumberDosesReceived) == 0;
      assert r.numberDosesExported == r.Get(NumberDosesExported) == 0;
      assert r.firstDoseRefused == r.Get(FirstDoseRefused) == 0;
      assert r.secondDose == r.Get(SecondDose) == 0;
      assert r.doseAdditional1 == r.Get(DoseAdditional1) == 0;
      assert r.unknownDose == r.Get(UnknownDose) == 0;
    }
  }

  /**
   * Of the two example rows, the national one is kept under "Age00_04" and "Pfizer" at 10 first
   * doses per hundred, dated Monday 4 January 2021 (day 737794); the regional one is dropped.
   */
  lemma PreprocessExample()
    ensures PreprocessTable([ExampleNational, ExampleRegional]) ==
            Success([VaccinationRecord("2021-W01", "ES", "Pfizer", "Age00_04", DoseCounts(0, 0, 100, 0, 0, 0, 0),
                                       1000, 47000000, 2021, 1, 737794, Some(10.0), Some(0.0), Some(0.0))])
  {
    ExampleKeptRows();
    ExampleAnnotate();
    ExampleGroup();
  }

  // ---------------------------------------------------------------- the stored table

  /** The dashboard's data holder: the raw table `df` and the preprocessed table `data`. */
  class VaccinationData {
    var df: seq<RawRecord>
    var data: Option<seq<VaccinationRecord>>

    /** A holder whose raw table has been read in (the reading itself is not modelled). */
    constructor (raw: seq<RawRecord>)
      ensures df == raw && data == None
    {
      df := raw;
      data := None;
    }

    /**
     * Normalises the age-band labels of `df` in place, then stores the preprocessed table in
     * `data`; on failure `data` keeps its value.
     */
    method Preprocess() returns (res: Result<seq<VaccinationRecord>, PreprocessError>)
      modifies this
      ensures df == NormalizeLabels(old(df))
      ensures res == PreprocessTable(old(df))
      ensures data == if res.Success? then Some(res.value) else old(data)
    {
      df := NormalizeLabels(df);
      res := PreprocessTable(df);
      PreprocessIdempotent(old(df));
      if res.Success? {
        data := Some(res.value);
      }
    }
  }
}
