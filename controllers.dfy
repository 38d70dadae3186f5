/**
 * The dashboard's selectors (covid19dashboard/controllers.py): an observable holding an ordered
 * list of observers, a country selector and a date-range selector. A selection stores the new
 * value, then notifies every attached chart in list order.
 */
module Controllers {
  import opened Wrappers
  import opened DataHelper
  import opened Plots

  /** An attached chart: one of the two chart classes. */
  datatype Observer =
    | VaccineTypeChart(vaccineChart: PercentageDosePerAgeGroupAndVaccineType)
    | AgeGroupChart(ageChart: PercentageDosePerAgeGroup)

  function ObjectOf(o: Observer): object {
    match o
    case VaccineTypeChart(c) => c
    case AgeGroupChart(c) => c
  }

  /** Different observers are different charts. */
  lemma ObjectOfInjective(a: Observer, b: Observer)
    ensures ObjectOf(a) == ObjectOf(b) ==> a == b
  {
  }

  function Objects(os: seq<Observer>): set<object> {
    set i | 0 <= i < |os| :: ObjectOf(os[i])
  }

  /** `o` can take a notification from a selector carrying `s`: it is built and can read `s`. */
  predicate Ready(o: Observer, s: Source)
    reads ObjectOf(o)
  {
    match o
    case VaccineTypeChart(c) => c.Built()
    case AgeGroupChart(c) => c.viewFilter.Some? && s.CountrySource?
  }

  /** `o` shows what `s` carries. */
  predicate Reflects(o: Observer, s: Source)
    reads ObjectOf(o)
  {
    match o
    case VaccineTypeChart(c) =>
      c.Built() &&
      (match s
       case CountrySource(v) => c.countryId == v && c.viewFilter == Some(v)
       case DateRangeSource(a, b) =>
         c.startDate == a && c.endDate == b && c.data == ChartDataOf(c.table, a, b) && c.source == Some(c.data))
    case AgeGroupChart(c) => s.CountrySource? && c.countryId == s.value && c.viewFilter == Some(s.value)
  }

  /**
   * What a notification leaves alone: after a country selection the stacked chart keeps its
   * table, column source and date bounds; after a date selection it keeps its country and view
   * filter. The age-group chart has no field besides the two `Reflects` fixes.
   */
  twostate predicate Kept(o: Observer, s: Source)
    reads ObjectOf(o)
  {
    match o
    case VaccineTypeChart(c) =>
      (match s
       case CountrySource(_) =>
         c.data == old(c.data) && c.source == old(c.source) &&
         c.startDate == old(c.startDate) && c.endDate == old(c.endDate)
       case DateRangeSource(_, _) => c.countryId == old(c.countryId) && c.viewFilter == old(c.viewFilter))
    case AgeGroupChart(_) => true
  }

  // ---------------------------------------------------------------- the observer list

  /** The `update` calls of one notification: each observer with the source, in list order. */
  function Trace(os: seq<Observer>, s: Source): (r: seq<(Observer, Source)>)
    ensures |r| == |os| && forall i :: 0 <= i < |os| ==> r[i] == (os[i], s)
  {
    if os == [] then [] else Trace(os[..|os| - 1], s) + [(os[|os| - 1], s)]
  }

  /** The list without the first occurrence of `o` (`list.remove`); unchanged when `o` is absent. */
  function RemoveFirst<T(==)>(os: seq<T>, o: T): (r: seq<T>)
    ensures o !in os ==> r == os
    ensures o in os ==> |r| == |os| - 1
  {
    if os == [] then []
    else if os[0] == o then os[1..]
    else [os[0]] + RemoveFirst(os[1..], o)
  }

  /** Exactly one copy of `o` goes, if there is one, and every other entry stays. */
  lemma {:induction false} RemoveFirstMultiset<T>(os: seq<T>, o: T)
    ensures multiset(RemoveFirst(os, o)) == multiset(os) - multiset{o}
  {
    if os != [] {
      assert os == [os[0]] + os[1..];
      if os[0] != o {
        RemoveFirstMultiset(os[1..], o);
      }
    }
  }

  /** Only the first occurrence goes: what stands before it and after it keeps its order. */
  lemma {:induction false} RemoveFirstAt<T>(os: seq<T>, o: T, i: int)
    requires 0 <= i < |os| && os[i] == o && o !in os[..i]
    ensures RemoveFirst(os, o) == os[..i] + os[i + 1..]
  {
    if i == 0 {
      assert os[..0] + os[1..] == os[1..];
    } else {
      var t := os[1..];
      assert os[0] in os[..i];
      assert RemoveFirst(os, o) == [os[0]] + RemoveFirst(t, o);
      assert t[..i - 1] == os[1..i];
      assert o !in t[..i - 1] by {
        forall x | x in os[1..i] ensures x in os[..i] {
          var m :| 0 <= m < i - 1 && os[1..i][m] == x;
          assert os[..i][m + 1] == x;
        }
      }
      RemoveFirstAt(t, o, i - 1);
      assert t[i..] == os[i + 1..];
      assert os[..i] == [os[0]] + t[..i - 1];
    }
  }

  /** Attaching an observer that was not attached, then detaching it, restores the list. */
  lemma {:induction false} AttachThenDetach<T>(os: seq<T>, o: T)
    requires o !in os
    ensures RemoveFirst(os + [o], o) == os
  {
    var s := os + [o];
    assert s[..|os|] == os;
    RemoveFirstAt(s, o, |os|);
    assert s[|os| + 1..] == [];
  }

  /**
   * One `update` call: the chart takes the notification, then shows what `s` carries and keeps
   * what `s` does not concern.
   */
  method Deliver(o: Observer, s: Source)
    requires Ready(o, s)
    modifies ObjectOf(o)
    ensures Ready(o, s) && Reflects(o, s) && Kept(o, s)
  {
    match o {
      case VaccineTypeChart(c) => c.Update(s);
      case AgeGroupChart(c) => c.Update(s);
    }
  }

  /** The observer list shared by both selectors. */
  class GenericObservable {
    var observers: seq<Observer>

    constructor ()
      ensures observers == []
    {
      observers := [];
    }

    /** Appends `o`; an observer may be attached more than once. */
    method Attach(o: Observer)
      modifies this
      ensures observers == old(observers) + [o]
    {
      observers := observers + [o];
    }

    /**
     * Removes the first occurrence of `o`. `found` is false when `o` is not attached; the list is
     * then unchanged, where the source raises an error.
     */
    method Detach(o: Observer) returns (found: bool)
      modifies this
      ensures found <==> o in old(observers)
      ensures observers == RemoveFirst(old(observers), o)
    {
      found := o in observers;
      observers := RemoveFirst(observers, o);
    }

    /**
     * Calls `update` on each attached observer, once per entry and in list order, and returns
     * the calls made. Afterwards every attached chart shows what `s` carries and keeps what `s`
     * does not concern; nothing but the attached charts changes.
     */
    method Notify(s: Source) returns (calls: seq<(Observer, Source)>)
      requires forall i :: 0 <= i < |observers| ==> Ready(observers[i], s)
      modifies Objects(observers)
      ensures observers == old(observers)
      ensures calls == Trace(observers, s)
      ensures forall i :: 0 <= i < |observers| ==> Reflects(observers[i], s)
      ensures forall i :: 0 <= i < |observers| ==> Kept(observers[i], s)
    {
      var os := observers;
      calls := [];
      var i := 0;
      while i < |os|
        invariant 0 <= i <= |os|
        invariant observers == os
        invariant calls == Trace(os[..i], s)
        invariant forall j :: 0 <= j < |os| ==> Ready(os[j], s)
        invariant forall j :: 0 <= j < i ==> Reflects(os[j], s)
        invariant forall j :: 0 <= j < |os| ==> Kept(os[j], s)
      {
        var o := os[i];
        assert ObjectOf(o) in Objects(os);
        label before:
        Deliver(o, s);
        forall j | 0 <= j < |os|
          ensures Ready(os[j], s) && (j <= i ==> Reflects(os[j], s)) && Kept(os[j], s)
        {
          ObjectOfInjective(os[j], o);
          if ObjectOf(os[j]) != ObjectOf(o) {
            assert old@before(Ready(os[j], s)) && (j < i ==> old@before(Reflects(os[j], s)));
          }
        }
        assert os[..i + 1] == os[..i] + [o];
        calls := calls + [(o, s)];
        i := i + 1;
      }
      assert os[..i] == os;
    }
  }

  // ---------------------------------------------------------------- the selectors

  /** The country selector: starts at "ES"; a selection stores the country, then notifies. */
  class CountrySelector {
    /** The observer list the selector inherits. */
    const subject: GenericObservable
    var value: string

    constructor ()
      ensures value == "ES" && fresh(subject) && subject.observers == []
    {
      value := "ES";
      subject := new GenericObservable();
    }

    method SelectHandler(selected: string) returns (calls: seq<(Observer, Source)>)
      requires forall i :: 0 <= i < |subject.observers| ==> Ready(subject.observers[i], CountrySource(selected))
      modifies this, Objects(subject.observers)
      ensures value == selected && subject.observers == old(subject.observers)
      ensures calls == Trace(subject.observers, CountrySource(selected))
      ensures forall i :: 0 <= i < |subject.observers| ==> Reflects(subject.observers[i], CountrySource(selected))
      ensures forall i :: 0 <= i < |subject.observers| ==> Kept(subject.observers[i], CountrySource(selected))
    {
      value := selected;
      calls := subject.Notify(CountrySource(value));
    }
  }

  /** The earliest Date of the table; None for an empty table. */
  function MinDate(table: seq<VaccinationRecord>): (r: Option<int>)
    ensures r.None? <==> table == []
    ensures r.Some? ==> (exists i :: 0 <= i < |table| && table[i].date == r.value) &&
                        forall i :: 0 <= i < |table| ==> r.value <= table[i].date
  {
    if table == [] then None
    else
      match MinDate(table[1..])
      case None => Some(table[0].date)
      case Some(m) =>
        assert forall i :: 1 <= i < |table| ==> table[i] == table[1..][i - 1];
        if table[0].date <= m then Some(table[0].date)
        else
          var j :| 0 <= j < |table[1..]| && table[1..][j].date == m;
          assert table[j + 1].date == m;
          Some(m)
  }

  /** The latest Date of the table; None for an empty table. */
  function MaxDate(table: seq<VaccinationRecord>): (r: Option<int>)
    ensures r.None? <==> table == []
    ensures r.Some? ==> (exists i :: 0 <= i < |table| && table[i].date == r.value) &&
                        forall i :: 0 <= i < |table| ==> table[i].date <= r.value
  {
    if table == [] then None
    else
      match MaxDate(table[1..])
      case None => Some(table[0].date)
      case Some(m) =>
        assert forall i :: 1 <= i < |table| ==> table[i] == table[1..][i - 1];
        if m <= table[0].date then Some(table[0].date)
        else
          var j :| 0 <= j < |table[1..]| && table[1..][j].date == m;
          assert table[j + 1].date == m;
          Some(m)
  }

  /**
   * The date-range selector: starts at the earliest and latest Date of the table; a selection
   * stores both bounds, with no check that start comes before end, then notifies.
   */
  class DateRageSelector {
    /** The observer list the selector inherits. */
    const subject: GenericObservable
    var startDate: Option<int>
    var endDate: Option<int>

    constructor (vd: VaccinationData)
      requires vd.data.Some?
      ensures startDate == MinDate(vd.data.value) && endDate == MaxDate(vd.data.value)
      ensures fresh(subject) && subject.observers == []
    {
      subject := new GenericObservable();
      startDate := MinDate(vd.data.value);
      endDate := MaxDate(vd.data.value);
    }

    method SelectHandler(start: int, end: int) returns (calls: seq<(Observer, Source)>)
      requires forall i :: 0 <= i < |subject.observers| ==>
                 Ready(subject.observers[i], DateRangeSource(Some(start), Some(end)))
      modifies this, Objects(subject.observers)
      ensures startDate == Some(start) && endDate == Some(end)
      ensures subject.observers == old(subject.observers)
      ensures calls == Trace(subject.observers, DateRangeSource(Some(start), Some(end)))
      ensures forall i :: 0 <= i < |subject.observers| ==>
                Reflects(subject.observers[i], DateRangeSource(Some(start), Some(end)))
      ensures forall i :: 0 <= i < |subject.observers| ==>
                Kept(subject.observers[i], DateRangeSource(Some(start), Some(end)))
    {
      startDate := Some(start);
      endDate := Some(end);
      calls := subject.Notify(DateRangeSource(startDate, endDate));
    }
  }

  /**
   * Over day numbers, the window from the table's earliest to its latest Date (the selector's
   * initial bounds) is half-open: it keeps every row except those of the latest Date.
   */
  lemma FullRangeDropsLatestDate(table: seq<VaccinationRecord>, o: VaccinationRecord)
    requires table != []
    ensures o in DateFilter(table, MinDate(table), MaxDate(table)) <==>
            o in table && o.date != MaxDate(table).value
  {
    if o in table {
      var i :| 0 <= i < |table| && table[i] == o;
      assert MinDate(table).value <= table[i].date <= MaxDate(table).value;
    }
  }
}
