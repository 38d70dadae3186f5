/**
 * The data behind the dashboard's two charts (covid19dashboard/plots.py).
 *
 * The stacked chart shows one bar per (country, age band, dose type), split by vaccine. Its table
 * is derived from the preprocessed vaccination table in four steps: an optional date window, a
 * sum per (country, age band, vaccine), a pivot to one column per vaccine, and a
 * (TargetGroup, DoseType) factor. The simpler chart holds the per-(country, age band) sums.
 * Both charts are observers: a country selection only moves the view filter, while a date
 * selection recomputes the stacked chart's table from the whole table. Rendering is not modelled.
 */
module Plots {
  import opened Wrappers
  import opened Seqs
  import opened DataHelper

  /** The three percentage columns the charts show (`target_data`). */
  datatype DoseType = FirstDosePercent | SecondDosePercent | DoseAdditional1Percent

  const TargetData: seq<DoseType> := [FirstDosePercent, SecondDosePercent, DoseAdditional1Percent]

  /** What a chart's `update` reads from the selector that notified it. */
  datatype Source =
    | CountrySource(value: string)
    | DateRangeSource(startDate: Option<int>, endDate: Option<int>)

  function Percent(o: VaccinationRecord, d: DoseType): Option<real> {
    match d
    case FirstDosePercent => o.firstDosePercent
    case SecondDosePercent => o.secondDosePercent
    case DoseAdditional1Percent => o.doseAdditional1Percent
  }

  /** A cell as a column sum counts it: a missing value adds nothing. */
  function ValueOrZero(p: Option<real>): real {
    if p.Some? then p.value else 0.0
  }

  /** Column `d` summed over `rows`, missing values skipped. */
  function PercentSum(rows: seq<VaccinationRecord>, d: DoseType): real {
    if rows == [] then 0.0 else ValueOrZero(Percent(rows[0], d)) + PercentSum(rows[1..], d)
  }

  // ---------------------------------------------------------------- the date window

  /** The rows dated in [start, end), in table order. */
  function Window(rows: seq<VaccinationRecord>, start: int, end: int): (r: seq<VaccinationRecord>)
    ensures forall o :: o in r <==> o in rows && start <= o.date < end
    ensures |r| <= |rows|
  {
    if rows == [] then []
    else
      assert forall o :: o in rows <==> o == rows[0] || o in rows[1..];
      (if start <= rows[0].date < end then [rows[0]] else []) + Window(rows[1..], start, end)
  }

  /** The rows `_compute_data` works on: the window when both bounds are set, else the whole table. */
  function DateFilter(table: seq<VaccinationRecord>, startDate: Option<int>, endDate: Option<int>)
    : (r: seq<VaccinationRecord>)
    ensures startDate.Some? && endDate.Some? ==>
              forall o :: o in r <==> o in table && startDate.value <= o.date < endDate.value
    ensures startDate.None? || endDate.None? ==> r == table
  {
    if startDate.Some? && endDate.Some? then Window(table, startDate.value, endDate.value) else table
  }

  /**
   * The window works row by row: a table split in two is filtered part by part. With the
   * membership clause of `Window`, this pins every kept row to its place and its multiplicity.
   */
  lemma {:induction false} WindowAppend(a: seq<VaccinationRecord>, b: seq<VaccinationRecord>, start: int, end: int)
    ensures Window(a + b, start, end) == Window(a, start, end) + Window(b, start, end)
  {
    if a == [] {
      assert a + b == b;
    } else {
      assert (a + b)[0] == a[0];
      assert (a + b)[1..] == a[1..] + b;
      WindowAppend(a[1..], b, start, end);
    }
  }

  /** The same for the chart's filter, whichever bounds are set. */
  lemma DateFilterAppend(a: seq<VaccinationRecord>, b: seq<VaccinationRecord>, startDate: Option<int>, endDate: Option<int>)
    ensures DateFilter(a + b, startDate, endDate) == DateFilter(a, startDate, endDate) + DateFilter(b, startDate, endDate)
  {
    if startDate.Some? && endDate.Some? {
      WindowAppend(a, b, startDate.value, endDate.value);
    }
  }

  /** A window whose end is not after its start keeps nothing (the bounds are never checked). */
  lemma InvertedWindowIsEmpty(table: seq<VaccinationRecord>, start: int, end: int)
    requires end <= start
    ensures DateFilter(table, Some(start), Some(end)) == []
  {
    WindowEmpty(table, start, end);
  }

  lemma {:induction false} WindowEmpty(rows: seq<VaccinationRecord>, start: int, end: int)
    requires end <= start
    ensures Window(rows, start, end) == []
  {
    if rows != [] {
      WindowEmpty(rows[1..], start, end);
    }
  }

  // ---------------------------------------------------------------- grouping keys

  function BandOf(o: VaccinationRecord): (string, string) {
    (o.reportingCountry, o.targetGroup)
  }

  function VaccineOf(o: VaccinationRecord): string {
    o.vaccine
  }

  /** The rows whose `key` is `k`, in table order. */
  function Where<K(==)>(rows: seq<VaccinationRecord>, key: VaccinationRecord -> K, k: K)
    : (r: seq<VaccinationRecord>)
    ensures forall o :: o in r <==> o in rows && key(o) == k
  {
    if rows == [] then []
    else
      assert forall o :: o in rows <==> o == rows[0] || o in rows[1..];
      (if key(rows[0]) == k then [rows[0]] else []) + Where(rows[1..], key, k)
  }

  /** The (country, age band) pairs of `rows`, once each, in order of first appearance. */
  function Pairs(rows: seq<VaccinationRecord>): (r: seq<(string, string)>)
    ensures NoDuplicates(r)
  {
    Distinct(seq(|rows|, i requires 0 <= i < |rows| => BandOf(rows[i])))
  }

  /** The vaccines of `rows`, once each, in order of first appearance (`unique()`). */
  function Vaccines(rows: seq<VaccinationRecord>): (r: seq<string>)
    ensures NoDuplicates(r)
  {
    Distinct(seq(|rows|, i requires 0 <= i < |rows| => rows[i].vaccine))
  }

  lemma PairOfRow(rows: seq<VaccinationRecord>, o: VaccinationRecord)
    requires o in rows
    ensures BandOf(o) in Pairs(rows)
  {
    var i :| 0 <= i < |rows| && rows[i] == o;
    var s := seq(|rows|, i requires 0 <= i < |rows| => BandOf(rows[i]));
    assert s[i] == BandOf(o);
  }

  lemma RowOfPair(rows: seq<VaccinationRecord>, p: (string, string))
    requires p in Pairs(rows)
    ensures exists o :: o in rows && BandOf(o) == p
  {
    var s := seq(|rows|, i requires 0 <= i < |rows| => BandOf(rows[i]));
    var r := Pairs(rows);
    var j :| 0 <= j < |r| && r[j] == p;
    var i :| 0 <= i < |s| && s[i] == p;
    assert rows[i] in rows;
  }

  lemma VaccineOfRow(rows: seq<VaccinationRecord>, o: VaccinationRecord)
    requires o in rows
    ensures o.vaccine in Vaccines(rows)
  {
    var i :| 0 <= i < |rows| && rows[i] == o;
    var s := seq(|rows|, i requires 0 <= i < |rows| => rows[i].vaccine);
    assert s[i] == o.vaccine;
  }

  lemma RowOfVaccine(rows: seq<VaccinationRecord>, v: string)
    requires v in Vaccines(rows)
    ensures exists o :: o in rows && o.vaccine == v
  {
    var s := seq(|rows|, i requires 0 <= i < |rows| => rows[i].vaccine);
    var r := Vaccines(rows);
    var j :| 0 <= j < |r| && r[j] == v;
    var i :| 0 <= i < |s| && s[i] == v;
    assert rows[i] in rows;
  }

  // ---------------------------------------------------------------- sums by key

  /** The column-`d` sums of the groups `ks`, added up. */
  function SumByKey<K(==)>(rows: seq<VaccinationRecord>, key: VaccinationRecord -> K, ks: seq<K>, d: DoseType)
    : real
  {
    if ks == [] then 0.0 else PercentSum(Where(rows, key, ks[0]), d) + SumByKey(rows, key, ks[1..], d)
  }

  /** Adding one row in front adds its value to the group it falls in, if that group is listed. */
  lemma {:induction false} SumByKeyCons<K>(
    o: VaccinationRecord, rest: seq<VaccinationRecord>, key: VaccinationRecord -> K, ks: seq<K>, d: DoseType)
    requires NoDuplicates(ks)
    ensures SumByKey([o] + rest, key, ks, d) ==
            SumByKey(rest, key, ks, d) + (if key(o) in ks then ValueOrZero(Percent(o, d)) else 0.0)
  {
    if ks != [] {
      var rows := [o] + rest;
      assert rows[0] == o && rows[1..] == rest;
      var k := ks[0];
      assert Where(rows, key, k) == (if key(o) == k then [o] else []) + Where(rest, key, k);
      var w := Where(rest, key, k);
      if key(o) == k {
        assert ([o] + w)[0] == o && ([o] + w)[1..] == w;
        assert PercentSum([o] + w, d) == ValueOrZero(Percent(o, d)) + PercentSum(w, d);
      } else {
        assert [] + w == w;
      }
      assert NoDuplicates(ks[1..]);
      SumByKeyCons(o, rest, key, ks[1..], d);
      assert key(o) in ks <==> key(o) == k || key(o) in ks[1..];
      if key(o) == k {
        assert key(o) !in ks[1..] by {
          forall j | 0 <= j < |ks[1..]| ensures ks[1..][j] != k {
            assert ks[1..][j] == ks[j + 1];
          }
        }
      }
    }
  }

  /**
   * Summing each of a list of distinct groups that covers every row gives the column's total:
   * splitting rows into groups neither loses nor counts twice.
   */
  lemma {:induction false} SumByKeyPartition<K>(
    rows: seq<VaccinationRecord>, key: VaccinationRecord -> K, ks: seq<K>, d: DoseType)
    requires NoDuplicates(ks)
    requires forall i :: 0 <= i < |rows| ==> key(rows[i]) in ks
    ensures SumByKey(rows, key, ks, d) == PercentSum(rows, d)
  {
    if rows == [] {
      SumByKeyEmpty(key, ks, d);
    } else {
      var rest := rows[1..];
      assert rows == [rows[0]] + rest;
      SumByKeyCons(rows[0], rest, key, ks, d);
      forall i | 0 <= i < |rest| ensures key(rest[i]) in ks {
        assert rest[i] == rows[i + 1];
      }
      SumByKeyPartition(rest, key, ks, d);
    }
  }

  lemma {:induction false} SumByKeyEmpty<K>(key: VaccinationRecord -> K, ks: seq<K>, d: DoseType)
    ensures SumByKey([], key, ks, d) == 0.0
  {
    if ks != [] {
      SumByKeyEmpty(key, ks[1..], d);
    }
  }

  // ---------------------------------------------------------------- the stacked chart's table

  /** The rows of one (country, age band, vaccine) group. */
  function Matching(rows: seq<VaccinationRecord>, c: string, g: string, v: string): seq<VaccinationRecord> {
    Where(Where(rows, BandOf, (c, g)), VaccineOf, v)
  }

  /**
   * One pivot cell: the group's column-`d` sum, or nothing when the group has no row (the pivot
   * leaves that cell empty).
   */
  function Cell(rows: seq<VaccinationRecord>, c: string, g: string, d: DoseType, v: string): Option<real> {
    var m := Matching(rows, c, g, v);
    if m == [] then None else Some(PercentSum(m, d))
  }

  /**
   * A cell is empty exactly when no row has its country, age band and vaccine; otherwise it is
   * the column sum over those rows.
   */
  lemma CellFacts(rows: seq<VaccinationRecord>, c: string, g: string, d: DoseType, v: string)
    ensures Cell(rows, c, g, d, v).None? <==> forall o :: o in rows ==> !(BandOf(o) == (c, g) && o.vaccine == v)
    ensures ValueOrZero(Cell(rows, c, g, d, v)) == PercentSum(Matching(rows, c, g, v), d)
  {
    var m := Matching(rows, c, g, v);
    if m != [] {
      assert m[0] in m;
    }
  }

  /** The cells of one bar, one per vaccine of `vs`. */
  function Cells(rows: seq<VaccinationRecord>, c: string, g: string, d: DoseType, vs: seq<string>)
    : seq<Option<real>>
  {
    seq(|vs|, j requires 0 <= j < |vs| => Cell(rows, c, g, d, vs[j]))
  }

  /** The height of a stacked bar: its cells added up, empty cells counting nothing. */
  function CellsTotal(cells: seq<Option<real>>): real {
    if cells == [] then 0.0 else ValueOrZero(cells[0]) + CellsTotal(cells[1..])
  }

  datatype ChartRow = ChartRow(
    reportingCountry: string,
    targetGroup: string,
    doseType: DoseType,
    cells: seq<Option<real>>,
    factor: (string, DoseType))

  /** The pivoted table: its vaccine columns and its rows. */
  datatype ChartData = ChartData(vaccines: seq<string>, rows: seq<ChartRow>)

  function MakeRow(rows: seq<VaccinationRecord>, vs: seq<string>, p: (string, string), d: DoseType): ChartRow {
    ChartRow(p.0, p.1, d, Cells(rows, p.0, p.1, d, vs), (p.1, d))
  }

  /** `_compute_data` as a function of the table and the two bounds. */
  function ChartDataOf(table: seq<VaccinationRecord>, startDate: Option<int>, endDate: Option<int>)
    : (r: ChartData)
    ensures |r.rows| == 3 * |Pairs(DateFilter(table, startDate, endDate))|
  {
    var rows := DateFilter(table, startDate, endDate);
    var ps := Pairs(rows);
    var vs := Vaccines(rows);
    ChartData(vs, seq(3 * |ps|, k requires 0 <= k < 3 * |ps| => MakeRow(rows, vs, ps[k / 3], TargetData[k % 3])))
  }

  /** The vaccine columns are the vaccines of the filtered rows, each once. */
  lemma ChartVaccines(table: seq<VaccinationRecord>, startDate: Option<int>, endDate: Option<int>, v: string)
    ensures var r := ChartDataOf(table, startDate, endDate);
            NoDuplicates(r.vaccines) &&
            (v in r.vaccines <==> exists o :: o in DateFilter(table, startDate, endDate) && o.vaccine == v)
  {
    var rows := DateFilter(table, startDate, endDate);
    if v in Vaccines(rows) {
      RowOfVaccine(rows, v);
    }
    if o :| o in rows && o.vaccine == v {
      VaccineOfRow(rows, o);
    }
  }

  /**
   * Every filtered row's (country, age band) has a bar for each of the three dose types.
   */
  lemma ChartHasRowFor(
    table: seq<VaccinationRecord>, startDate: Option<int>, endDate: Option<int>, o: VaccinationRecord, d: DoseType)
    requires o in DateFilter(table, startDate, endDate)
    ensures var r := ChartDataOf(table, startDate, endDate);
            exists k :: 0 <= k < |r.rows| &&
              r.rows[k].reportingCountry == o.reportingCountry && r.rows[k].targetGroup == o.targetGroup &&
              r.rows[k].doseType == d
  {
    var rows := DateFilter(table, startDate, endDate);
    var ps := Pairs(rows);
    PairOfRow(rows, o);
    var i :| 0 <= i < |ps| && ps[i] == BandOf(o);
    var m := if d == FirstDosePercent then 0 else if d == SecondDosePercent then 1 else 2;
    assert TargetData[m] == d;
    var k := 3 * i + m;
    assert k / 3 == i && k % 3 == m;
    var r := ChartDataOf(table, startDate, endDate);
    assert r.rows[k] == MakeRow(rows, Vaccines(rows), ps[i], d);
  }

  /**
   * Every bar belongs to a (country, age band) of the filtered rows; its factor is
   * (TargetGroup, DoseType); and its cell for a vaccine is the sum of the dose column over the
   * filtered rows of that country, age band and vaccine, empty exactly when there are none.
   */
  lemma ChartRowShape(table: seq<VaccinationRecord>, startDate: Option<int>, endDate: Option<int>, k: int)
    requires 0 <= k < |ChartDataOf(table, startDate, endDate).rows|
    ensures var rows := DateFilter(table, startDate, endDate);
            var r := ChartDataOf(table, startDate, endDate);
            var row := r.rows[k];
            (exists o :: o in rows && o.reportingCountry == row.reportingCountry && o.targetGroup == row.targetGroup) &&
            row.factor == (row.targetGroup, row.doseType) &&
            |row.cells| == |r.vaccines| &&
            forall j :: 0 <= j < |r.vaccines| ==>
              row.cells[j] == Cell(rows, row.reportingCountry, row.targetGroup, row.doseType, r.vaccines[j]) &&
              ValueOrZero(row.cells[j]) ==
                PercentSum(Matching(rows, row.reportingCountry, row.targetGroup, r.vaccines[j]), row.doseType) &&
              (row.cells[j].None? <==>
                 forall o :: o in rows ==>
                   !(o.reportingCountry == row.reportingCountry && o.targetGroup == row.targetGroup &&
                     o.vaccine == r.vaccines[j]))
  {
    var rows := DateFilter(table, startDate, endDate);
    var ps := Pairs(rows);
    var vs := Vaccines(rows);
    RowKey(table, startDate, endDate, k);
    var p := ps[k / 3];
    assert p in ps;
    RowOfPair(rows, p);
    var row := ChartDataOf(table, startDate, endDate).rows[k];
    assert row == MakeRow(rows, vs, p, TargetData[k % 3]);
    assert row.cells == Cells(rows, p.0, p.1, row.doseType, vs);
    forall j | 0 <= j < |vs| {
      CellFacts(rows, p.0, p.1, row.doseType, vs[j]);
    }
  }

  /** No two bars share a (country, age band, dose type). */
  lemma ChartRowsUnique(table: seq<VaccinationRecord>, startDate: Option<int>, endDate: Option<int>)
    ensures var r := ChartDataOf(table, startDate, endDate);
            forall k1, k2 :: 0 <= k1 < k2 < |r.rows| ==>
              (r.rows[k1].reportingCountry, r.rows[k1].targetGroup, r.rows[k1].doseType) !=
              (r.rows[k2].reportingCountry, r.rows[k2].targetGroup, r.rows[k2].doseType)
  {
    var r := ChartDataOf(table, startDate, endDate);
    forall k1, k2 | 0 <= k1 < k2 < |r.rows|
      ensures (r.rows[k1].reportingCountry, r.rows[k1].targetGroup, r.rows[k1].doseType) !=
              (r.rows[k2].reportingCountry, r.rows[k2].targetGroup, r.rows[k2].doseType)
    {
      RowKey(table, startDate, endDate, k1);
      RowKey(table, startDate, endDate, k2);
      KeysDiffer(Pairs(DateFilter(table, startDate, endDate)), k1, k2);
    }
  }

  /** Distinct bar indices give distinct (pair, dose type) keys when the pairs are distinct. */
  lemma KeysDiffer(ps: seq<(string, string)>, k1: int, k2: int)
    requires NoDuplicates(ps)
    requires 0 <= k1 < k2 && k2 / 3 < |ps|
    ensures (ps[k1 / 3].0, ps[k1 / 3].1, TargetData[k1 % 3]) != (ps[k2 / 3].0, ps[k2 / 3].1, TargetData[k2 % 3])
  {
    IndexSplit(k1, k2);
    if k1 / 3 == k2 / 3 {
      assert TargetData[k1 % 3] != TargetData[k2 % 3];
    } else {
      assert k1 / 3 < k2 / 3;
      assert ps[k1 / 3] != ps[k2 / 3];
    }
  }

  /** Bar `k` is pair `k / 3` of the filtered rows with dose type `k % 3`. */
  lemma RowKey(table: seq<VaccinationRecord>, startDate: Option<int>, endDate: Option<int>, k: int)
    requires 0 <= k < |ChartDataOf(table, startDate, endDate).rows|
    ensures var ps := Pairs(DateFilter(table, startDate, endDate));
            var row := ChartDataOf(table, startDate, endDate).rows[k];
            0 <= k / 3 < |ps| && 0 <= k % 3 < 3 &&
            (row.reportingCountry, row.targetGroup) == ps[k / 3] && row.doseType == TargetData[k % 3]
  {
  }

  /** Bar `k` stands for pair `k / 3` and dose type `k % 3`; distinct bars differ in one of them. */
  lemma IndexSplit(k1: int, k2: int)
    requires 0 <= k1 < k2
    ensures k1 / 3 != k2 / 3 || k1 % 3 != k2 % 3
    ensures 0 <= k1 % 3 < 3 && 0 <= k2 % 3 < 3
  {
    assert k1 == 3 * (k1 / 3) + k1 % 3;
    assert k2 == 3 * (k2 / 3) + k2 % 3;
  }

  lemma {:induction false} CellsTotalByVaccine(rows: seq<VaccinationRecord>, c: string, g: string, d: DoseType, vs: seq<string>)
    ensures CellsTotal(Cells(rows, c, g, d, vs)) == SumByKey(Where(rows, BandOf, (c, g)), VaccineOf, vs, d)
  {
    if vs != [] {
      var cs := Cells(rows, c, g, d, vs);
      var band := Where(rows, BandOf, (c, g));
      CellsTail(rows, c, g, d, vs);
      assert CellsTotal(cs) == ValueOrZero(Cell(rows, c, g, d, vs[0])) + CellsTotal(Cells(rows, c, g, d, vs[1..]));
      CellFacts(rows, c, g, d, vs[0]);
      CellsTotalByVaccine(rows, c, g, d, vs[1..]);
    }
  }

  lemma CellsTail(rows: seq<VaccinationRecord>, c: string, g: string, d: DoseType, vs: seq<string>)
    requires vs != []
    ensures Cells(rows, c, g, d, vs)[0] == Cell(rows, c, g, d, vs[0])
    ensures Cells(rows, c, g, d, vs)[1..] == Cells(rows, c, g, d, vs[1..])
  {
  }

  /**
   * The height of every stacked bar is the column-`d` sum over the filtered rows of its country
   * and age band: splitting a bar by vaccine loses nothing and counts nothing twice.
   */
  lemma StackedBarTotal(table: seq<VaccinationRecord>, startDate: Option<int>, endDate: Option<int>, k: int)
    requires 0 <= k < |ChartDataOf(table, startDate, endDate).rows|
    ensures var row := ChartDataOf(table, startDate, endDate).rows[k];
            CellsTotal(row.cells) ==
              PercentSum(Where(DateFilter(table, startDate, endDate), BandOf, (row.reportingCountry, row.targetGroup)), row.doseType)
  {
    var rows := DateFilter(table, startDate, endDate);
    var vs := Vaccines(rows);
    var row := ChartDataOf(table, startDate, endDate).rows[k];
    var (c, g) := (row.reportingCountry, row.targetGroup);
    CellsTotalByVaccine(rows, c, g, row.doseType, vs);
    var band := Where(rows, BandOf, (c, g));
    forall i | 0 <= i < |band| ensures VaccineOf(band[i]) in vs {
      assert band[i] in band;
      VaccineOfRow(rows, band[i]);
    }
    SumByKeyPartition(band, VaccineOf, vs, row.doseType);
  }

  // ---------------------------------------------------------------- the age-group chart's table

  datatype AgeGroupRow = AgeGroupRow(
    reportingCountry: string,
    targetGroup: string,
    firstDosePercent: real,
    secondDosePercent: real,
    doseAdditional1Percent: real)
  {
    function Get(d: DoseType): real {
      match d
      case FirstDosePercent => firstDosePercent
      case SecondDosePercent => secondDosePercent
      case DoseAdditional1Percent => doseAdditional1Percent
    }
  }

  /** The three column sums of the (country, age band) pairs `ps`, one row per pair. */
  function AgeGroupRows(table: seq<VaccinationRecord>, ps: seq<(string, string)>): (r: seq<AgeGroupRow>)
    ensures |r| == |ps|
    ensures forall i :: 0 <= i < |ps| ==>
              r[i].reportingCountry == ps[i].0 && r[i].targetGroup == ps[i].1 &&
              forall d :: r[i].Get(d) == PercentSum(Where(table, BandOf, ps[i]), d)
  {
    if ps == [] then []
    else
      var band := Where(table, BandOf, ps[0]);
      [AgeGroupRow(ps[0].0, ps[0].1,
                   PercentSum(band, FirstDosePercent), PercentSum(band, SecondDosePercent),
                   PercentSum(band, DoseAdditional1Percent))]
      + AgeGroupRows(table, ps[1..])
  }

  /**
   * The age-group chart's table: each row's (country, age band) occurs in the table, and its three
   * values are the column sums over that band's rows.
   */
  function AgeGroupTotals(table: seq<VaccinationRecord>): (r: seq<AgeGroupRow>)
    ensures forall i :: 0 <= i < |r| ==>
              exists o :: o in table && BandOf(o) == (r[i].reportingCountry, r[i].targetGroup)
    ensures forall i, d :: 0 <= i < |r| ==>
              r[i].Get(d) == PercentSum(Where(table, BandOf, (r[i].reportingCountry, r[i].targetGroup)), d)
  {
    var ps := Pairs(table);
    var r := AgeGroupRows(table, ps);
    assert forall i :: 0 <= i < |r| ==> exists o :: o in table && BandOf(o) == (r[i].reportingCountry, r[i].targetGroup) by {
      forall i | 0 <= i < |r| ensures exists o :: o in table && BandOf(o) == (r[i].reportingCountry, r[i].targetGroup) {
        assert ps[i] in ps;
        RowOfPair(table, ps[i]);
      }
    }
    r
  }

  function ColumnTotal(rows: seq<AgeGroupRow>, d: DoseType): real {
    if rows == [] then 0.0 else rows[0].Get(d) + ColumnTotal(rows[1..], d)
  }

  /** Each (country, age band) of the table has exactly one row. */
  lemma AgeGroupTotalsKeys(table: seq<VaccinationRecord>, o: VaccinationRecord)
    requires o in table
    ensures var r := AgeGroupTotals(table);
            (forall i, j :: 0 <= i < j < |r| ==>
               (r[i].reportingCountry, r[i].targetGroup) != (r[j].reportingCountry, r[j].targetGroup)) &&
            exists i :: 0 <= i < |r| && (r[i].reportingCountry, r[i].targetGroup) == BandOf(o)
  {
    var ps := Pairs(table);
    PairOfRow(table, o);
    var i :| 0 <= i < |ps| && ps[i] == BandOf(o);
    var r := AgeGroupTotals(table);
    assert (r[i].reportingCountry, r[i].targetGroup) == ps[i];
    forall i1, i2 | 0 <= i1 < i2 < |r|
      ensures (r[i1].reportingCountry, r[i1].targetGroup) != (r[i2].reportingCountry, r[i2].targetGroup)
    {
      assert (r[i1].reportingCountry, r[i1].targetGroup) == ps[i1];
      assert (r[i2].reportingCountry, r[i2].targetGroup) == ps[i2];
    }
  }

  lemma {:induction false} ColumnTotalByBand(table: seq<VaccinationRecord>, ps: seq<(string, string)>, d: DoseType)
    ensures ColumnTotal(AgeGroupRows(table, ps), d) == SumByKey(table, BandOf, ps, d)
  {
    if ps != [] {
      var r := AgeGroupRows(table, ps);
      assert r[1..] == AgeGroupRows(table, ps[1..]);
      ColumnTotalByBand(table, ps[1..], d);
    }
  }

  /** The age-group rows of a column add up to that column's total over the whole table. */
  lemma AgeGroupTotalsConserve(table: seq<VaccinationRecord>, d: DoseType)
    ensures ColumnTotal(AgeGroupTotals(table), d) == PercentSum(table, d)
  {
    var ps := Pairs(table);
    ColumnTotalByBand(table, ps, d);
    forall i | 0 <= i < |table| ensures BandOf(table[i]) in ps {
      PairOfRow(table, table[i]);
    }
    SumByKeyPartition(table, BandOf, ps, d);
  }

  /**
   * With no date window set, each stacked bar of the vaccine chart is as high as the matching
   * bar of the age-group chart.
   */
  lemma StackedBarMatchesAgeGroup(table: seq<VaccinationRecord>, k: int, i: int)
    requires 0 <= k < |ChartDataOf(table, None, None).rows|
    requires 0 <= i < |AgeGroupTotals(table)|
    requires var row := ChartDataOf(table, None, None).rows[k];
             var a := AgeGroupTotals(table)[i];
             a.reportingCountry == row.reportingCountry && a.targetGroup == row.targetGroup
    ensures var row := ChartDataOf(table, None, None).rows[k];
            CellsTotal(row.cells) == AgeGroupTotals(table)[i].Get(row.doseType)
  {
    StackedBarTotal(table, None, None, k);
  }

  // ---------------------------------------------------------------- the charts

  /** The stacked chart of dose percentages per age group, split by vaccine. */
  class PercentageDosePerAgeGroupAndVaccineType {
    /** The preprocessed table the chart reads. */
    const table: seq<VaccinationRecord>
    const vaccineTypes: seq<string>
    var countryId: string
    var startDate: Option<int>
    var endDate: Option<int>
    var data: ChartData
    /** The table last handed to the chart's column source; None until built. */
    var source: Option<ChartData>
    /** The country the view shows; None until built. */
    var viewFilter: Option<string>

    predicate Built()
      reads this
    {
      source.Some? && viewFilter.Some?
    }

    /** Country "ES", no date window, and the table computed over every row. */
    constructor (vd: VaccinationData)
      requires vd.data.Some?
      ensures table == vd.data.value && vaccineTypes == Vaccines(table)
      ensures countryId == "ES" && startDate == None && endDate == None
      ensures data == ChartDataOf(table, None, None)
      ensures source == None && viewFilter == None
    {
      table := vd.data.value;
      vaccineTypes := Vaccines(vd.data.value);
      countryId := "ES";
      startDate := None;
      endDate := None;
      data := ChartData([], []);
      source := None;
      viewFilter := None;
      new;
      ComputeData();
    }

    /** Recomputes the table from the whole table and the stored bounds. */
    method ComputeData()
      modifies this
      ensures data == ChartDataOf(table, startDate, endDate)
      ensures countryId == old(countryId) && startDate == old(startDate) && endDate == old(endDate)
      ensures source == old(source) && viewFilter == old(viewFilter)
    {
      data := ChartDataOf(table, startDate, endDate);
    }

    /** Recomputes the table and hands it to the column source. */
    method RecomputeSource()
      requires source.Some?
      modifies this
      ensures data == ChartDataOf(table, startDate, endDate) && source == Some(data)
      ensures countryId == old(countryId) && startDate == old(startDate) && endDate == old(endDate)
      ensures viewFilter == old(viewFilter)
    {
      ComputeData();
      source := Some(data);
    }

    /** The data part of `build`: the column source gets the table, the view the country. */
    method Build()
      modifies this
      ensures source == Some(data) && viewFilter == Some(countryId)
      ensures countryId == old(countryId) && startDate == old(startDate) && endDate == old(endDate)
      ensures data == old(data)
    {
      source := Some(data);
      viewFilter := Some(countryId);
    }

    /**
     * A country selection moves only the country and the view filter; a date selection stores
     * both bounds and recomputes the table from the whole table, not from the previous one.
     */
    method Update(s: Source)
      requires Built()
      modifies this
      ensures Built()
      ensures s.CountrySource? ==>
                countryId == s.value && viewFilter == Some(s.value) &&
                data == old(data) && source == old(source) &&
                startDate == old(startDate) && endDate == old(endDate)
      ensures s.DateRangeSource? ==>
                startDate == s.startDate && endDate == s.endDate &&
                data == ChartDataOf(table, s.startDate, s.endDate) && source == Some(data) &&
                countryId == old(countryId) && viewFilter == old(viewFilter)
    {
      match s
      case CountrySource(v) =>
        countryId := v;
        viewFilter := Some(v);
      case DateRangeSource(a, b) =>
        startDate := a;
        endDate := b;
        RecomputeSource();
    }
  }

  /** The chart of the three dose percentages per age group. */
  class PercentageDosePerAgeGroup {
    const table: seq<VaccinationRecord>
    var countryId: string
    const data: seq<AgeGroupRow>
    /** The country the view shows; None until built. */
    var viewFilter: Option<string>

    /** Country "ES" and the per-(country, age band) sums, computed once. */
    constructor (vd: VaccinationData)
      requires vd.data.Some?
      ensures table == vd.data.value && countryId == "ES"
      ensures data == AgeGroupTotals(table) && viewFilter == None
    {
      table := vd.data.value;
      countryId := "ES";
      data := AgeGroupTotals(vd.data.value);
      viewFilter := None;
    }

    /** The data part of `build`: the view shows the current country. */
    method Build()
      modifies this
      ensures viewFilter == Some(countryId) && countryId == old(countryId)
    {
      viewFilter := Some(countryId);
    }

    /** Only a country selection can be handled: it moves the country and the view filter. */
    method Update(s: Source)
      requires s.CountrySource? && viewFilter.Some?
      modifies this
      ensures countryId == s.value && viewFilter == Some(s.value)
    {
      countryId := s.value;
      viewFilter := Some(s.value);
    }
  }
}
