# covid19dashboard in Dafny

This project models the core of the covid19dashboard, a dashboard that shows COVID-19
vaccination-dose percentages. It shows them per age group, vaccine type and country, over a
date range the user selects. The model has three parts:

- **The preprocessing pipeline** (`VaccinationData.preprocess`). It takes the raw weekly
  surveillance rows and does the following:
  - renames two age-band labels;
  - keeps the national rows of the ten known age bands;
  - splits `YearWeekISO` into a year and a week;
  - turns the ISO year-week into the Monday that starts it;
  - groups by (year-week, country, vaccine, age band), summing the seven dose columns and
    taking the last row's denominator, population, year, week and date;
  - renames vaccine codes;
  - computes the three dose percentages.
- **The two charts.** The stacked chart recomputes its pivot table from the preprocessed table.
  It filters by a half-open date window, sums per (country, age band, vaccine), stacks the
  three dose columns, pivots on the vaccine and builds the (age band, dose type) factor. The
  age-group chart sums the three percentages per (country, age band). Both charts react to
  `update`.
- **The observer machinery.** `GenericObservable` keeps an ordered list of observers with
  attach, detach and notify. The country selector and the date-range selector store the
  selected value and then notify.

The modules follow the source files:

| module | file | what it holds |
|---|---|---|
| `Wrappers` | `wrappers.dfy` | `Option` and `Result` |
| `Seqs` | `seqs.dfy` | duplicate-free sequences; first-appearance `Distinct` |
| `IsoCalendar` | `iso_calendar.dfy` | the proleptic Gregorian calendar, counted in day numbers (0001-01-01 is day 1, a Monday); ISO 8601 week dates |
| `YearWeek` | `year_week.dfy` | splitting `"YYYY-Www"` at the dash and reading both halves as decimal numerals |
| `DataHelper` | `data_helper.dfy` | the raw and preprocessed records, the pipeline as functions, and the `VaccinationData` class |
| `Plots` | `plots.dfy` | the date window, the pivot table, the age-group sums, and the two chart classes |
| `Controllers` | `controllers.dfy` | the observer list, the two selectors, and the min/max dates of the table |

Dates are whole day numbers. A percentage is an `Option<real>`, where `None` stands for
pandas' NaN, i.e. a zero denominator. A selector notifies with a `Source` value, which is
the selector's state at the time of the call. Each chart's `update` dispatches on its kind:
`CountrySource(value)` or `DateRangeSource(startDate, endDate)`.

## Model

| member | source | states |
|---|---|---|
| IsoCalendar.MondayOnOrBefore | covid19dashboard/data_helper.py:43-44 | the Monday that starts a day's Monday-to-Sunday week: it is a Monday, at most six days before the day |
| IsoCalendar.IsoWeek1Monday | covid19dashboard/data_helper.py:43-44 | week 1 of an ISO year (`%G`) starts on the Monday of the week that holds 4 January |
| IsoCalendar.MondayOfIsoWeek | covid19dashboard/data_helper.py:43-44 | the date that `%V%G-%u` with weekday 1 gives is always a Monday |
| IsoCalendar.YearLength | covid19dashboard/data_helper.py:43-44 | consecutive 1 January day numbers are 366 days apart in a Gregorian leap year and 365 otherwise |
| IsoCalendar.IsoYearLength | covid19dashboard/data_helper.py:43-44 | an ISO year has 52 or 53 weeks; it has 53 exactly when 1 January is a Thursday, or a Wednesday in a leap year |
| IsoCalendar.IsoWeek1MondayIncreasing | covid19dashboard/data_helper.py:43-44 | a later ISO year starts later: week 1 Mondays strictly increase with the year |
| IsoCalendar.MondayOfIsoWeekInWeek | covid19dashboard/data_helper.py:43-44 | for a week the year has, the computed Monday lies in that ISO week of that ISO year, by the Thursday rule (the Thursday of its week falls in that calendar year, in its w-th run of seven days) |
| IsoCalendar.IsoWeekUnique | covid19dashboard/data_helper.py:43-44 | by the Thursday rule a day lies in at most one (ISO year, week), so different year-weeks give different Mondays |
| IsoCalendar.Week53Rollover | covid19dashboard/data_helper.py:43-44 | week 53 of a 52-week ISO year gives the Monday of week 1 of the next ISO year, and that Monday lies in week 1 of that year |
| IsoCalendar.Week0Rollback | covid19dashboard/data_helper.py:43-44 | week 0, which `%V` accepts, gives the Monday of the last week of the ISO year before, and that Monday lies in that week |
| IsoCalendar.MondayOfIsoWeekPlaced | covid19dashboard/data_helper.py:43-44 | for every week 0 to 53: the Monday lies in that week when the year has it, in week 1 of the next year for week 53 of a 52-week year, and in the last week of the year before for week 0 |
| IsoCalendar.Jan1Increasing | covid19dashboard/data_helper.py:43-44 | 1 January of a later year comes strictly later, so a day falls in one calendar year only |
| YearWeek.ParseYearWeek | covid19dashboard/data_helper.py:33-35 | a (year, week) pair comes out only when the text has exactly one dash and the part before it is a decimal numeral |
| YearWeek.NumeralRoundTrip | covid19dashboard/data_helper.py:34-35 | reading a zero-padded decimal numeral gives back the number written |
| YearWeek.YearWeekRoundTrip | covid19dashboard/data_helper.py:33-35 | splitting `"YYYY-Www"` (any non-dash character in place of `W`) gives back (YYYY, ww) |
| DataHelper.NormalizeTargetGroup | covid19dashboard/data_helper.py:28 | `Age0_4` becomes `Age00_04`, `Age5_9` becomes `Age05_09`, and every other label stays; after renaming, a label is one of the ten age bands iff it already was one or it was `Age0_4` or `Age5_9` |
| DataHelper.NormalizeTargetGroupIdempotent | covid19dashboard/data_helper.py:28 | renaming a label twice gives the same label as renaming it once |
| DataHelper.NormalizeLabels | covid19dashboard/data_helper.py:28 | the age-band column is renamed in place: the table keeps its length and every other column; each label is renamed as above (so `Age0_4` and `Age5_9` stay two different bands), any other label is kept, and a renamed one is a listed band |
| DataHelper.NormalizeLabelsIdempotent | covid19dashboard/data_helper.py:28 | renaming a table's age bands twice gives the same table as renaming them once |
| DataHelper.NormalizeLabelsAppend | covid19dashboard/data_helper.py:28 | the renaming works row by row: renaming a concatenation renames each part |
| DataHelper.SelectNational | covid19dashboard/data_helper.py:30-31 | a row is kept iff it is in the table, its Region equals its ReportingCountry, and its age band is one of the ten; no row is added |
| DataHelper.SelectNationalAppend | covid19dashboard/data_helper.py:30-31 | the filter keeps row order: filtering a concatenation filters each part |
| DataHelper.KeptRows | covid19dashboard/data_helper.py:28-31 | every kept row is national, in a listed band, and a raw row with its label renamed; every national raw row whose renamed label is listed is kept |
| DataHelper.AnnotateRow | covid19dashboard/data_helper.py:33-44 | for years 1000 to 9999, the conversion fails iff the year-week does not parse, the week is above 53, or the Monday falls outside pandas' Timestamp range (1677-09-22 to 2262-04-11); on success Year and Week are the parsed numbers and Date is a Monday in that range, lying in that ISO week when the year has it, in week 1 of the next year for week 53 of a 52-week year, and in the last week of the year before for week 0 |
| DataHelper.Annotate | covid19dashboard/data_helper.py:33-44 | the whole table converts iff it is not empty and every row converts; the converted rows are the rows one by one, in order |
| DataHelper.Partition | covid19dashboard/data_helper.py:46-53 | splitting the rows of one key from the others loses no row and no dose |
| DataHelper.Aggregate | covid19dashboard/data_helper.py:46-59 | a group's row has the group's key; each of the seven dose columns is the sum of that column over the group; the denominator, population, year, week and date are those of the group's last row |
| DataHelper.GroupRows | covid19dashboard/data_helper.py:46-59 | grouping never gives more rows than it was given, and gives none only for an empty table |
| DataHelper.GroupRowsKeysFromRows | covid19dashboard/data_helper.py:46-59 | every grouped row's key (year-week, country, vaccine, age band) is the key of some input row |
| DataHelper.GroupRowsCoverRows | covid19dashboard/data_helper.py:46-59 | every input row's key has a grouped row |
| DataHelper.GroupRowsDistinct | covid19dashboard/data_helper.py:46-59 | no two grouped rows share a key |
| DataHelper.GroupRowsAggregates | covid19dashboard/data_helper.py:46-59 | each grouped row is the aggregate of all rows with its key: each dose column is that column summed over its group, and the denominator, population, year, week and date are those of the group's last row |
| DataHelper.GroupRowsConservesDoses | covid19dashboard/data_helper.py:46-53 | grouping conserves the total of every dose column |
| DataHelper.VaccineName | covid19dashboard/data_helper.py:61-70 | a code changes iff it is one of the eight listed codes, and then becomes its own name from the table (`COM` becomes `Pfizer`, `MOD` becomes `Moderna`, and so on); no listed code is left afterwards, so renaming again changes nothing |
| DataHelper.VaccineNameInjective | covid19dashboard/data_helper.py:61-70 | two different codes that are not themselves vaccine names never map to the same name |
| DataHelper.DosePercent | covid19dashboard/data_helper.py:72-74 | the percentage is missing (NaN) iff the denominator is 0; otherwise percentage × denominator = 100 × count |
| DataHelper.Finish | covid19dashboard/data_helper.py:61-74 | a grouped row keeps its week, country, age band, counts, denominator, population, year, week and date; its vaccine is renamed; each of the three percentages is missing iff the denominator is 0, and otherwise times the denominator gives 100 times its dose count |
| DataHelper.FinishAll | covid19dashboard/data_helper.py:61-74 | the renaming and the percentages are applied to every grouped row, keeping the number and order of rows |
| DataHelper.PreprocessTable | covid19dashboard/data_helper.py:27-76 | preprocessing fails iff no national row of a known age band is kept, or some kept row fails the year-week conversion |
| DataHelper.PreprocessRowsAreNational | covid19dashboard/data_helper.py:30-70 | every output row comes from a kept national raw row with the same country and age band, whose code maps to the output's vaccine name and whose year-week gives its year and week; its date is a Monday, in that ISO week when the year has it |
| DataHelper.PreprocessKeepsNationalRows | covid19dashboard/data_helper.py:28-59 | every national row of a known age band is represented by an output row with its key |
| DataHelper.PreprocessOneRowPerGroup | covid19dashboard/data_helper.py:46-70 | when no raw code is already a vaccine name, no two output rows share (year-week, country, vaccine name, age band) |
| DataHelper.PreprocessConservesDoses | covid19dashboard/data_helper.py:46-53 | each dose column's output total equals its total over the kept raw rows |
| DataHelper.PreprocessIdempotent | covid19dashboard/data_helper.py:28-31 | preprocessing an already renamed table gives the same result as preprocessing the original table |
| DataHelper.SubnationalRowIgnored | covid19dashboard/data_helper.py:30-31 | adding a subnational row (Region differs from ReportingCountry) leaves the result unchanged |
| DataHelper.PreprocessExample | covid19dashboard/data_helper.py:27-76 | a national "2021-W01" COM row for Age0_4 with 100 first doses out of 1000 becomes one Pfizer row for Age00_04 on Monday 2021-01-04 with 10 % first doses; a regional row beside it is dropped |
| DataHelper.VaccinationData.constructor | covid19dashboard/data_helper.py:11-25 | a holder with the raw table read in and no preprocessed table |
| DataHelper.VaccinationData.Preprocess | covid19dashboard/data_helper.py:27-76 | `df`'s age bands are renamed in place; the result is the preprocessed table of the old `df`, which is stored in `data` on success |
| Plots.Window | covid19dashboard/plots.py:28 | a row is kept iff it is in the table and start ≤ Date < end; no row is added |
| Plots.DateFilter | covid19dashboard/plots.py:27-30 | with both bounds set the table is the half-open window; with either bound unset it is the whole table |
| Plots.WindowAppend | covid19dashboard/plots.py:28 | the window works row by row: filtering a concatenation filters each part, so every qualifying row is kept in table order, as often as it occurs |
| Plots.DateFilterAppend | covid19dashboard/plots.py:27-30 | the same for the chart's filter, whichever bounds are set |
| Plots.InvertedWindowIsEmpty | covid19dashboard/plots.py:27-28 | a window whose end is not after its start keeps no row |
| Plots.SumByKeyCons | covid19dashboard/plots.py:31-32 | adding a row to a group sum adds its percentage iff its key is among the distinct keys summed |
| Plots.SumByKeyPartition | covid19dashboard/plots.py:31-32 | per-group sums over distinct keys that cover every row add up to the sum over all rows |
| Plots.CellFacts | covid19dashboard/plots.py:31-35 | a pivot cell is NaN iff no row has its (country, age band, vaccine); otherwise it is that group's sum of the dose column |
| Plots.ChartDataOf | covid19dashboard/plots.py:25-36 | the pivot table has three rows (one per dose type) for each (country, age band) of the filtered table |
| Plots.ChartVaccines | covid19dashboard/plots.py:34-35 | the pivot's columns are distinct, one per vaccine found in the filtered table |
| Plots.ChartHasRowFor | covid19dashboard/plots.py:31-35 | every (country, age band) of the filtered table and every dose type has a row in the pivot table |
| Plots.ChartRowShape | covid19dashboard/plots.py:31-36 | each pivot row's (country, age band) occurs in the filtered table; its factor is (age band, dose type); it has one cell per vaccine, holding the column sum over the filtered rows of its country, age band and vaccine, and NaN exactly where no row matches |
| Plots.ChartRowsUnique | covid19dashboard/plots.py:34-35 | no two pivot rows share (country, age band, dose type) |
| Plots.CellsTotalByVaccine | covid19dashboard/plots.py:31-35 | summing a pivot row's cells (NaN as zero) adds up the dose column over the row's (country, age band), vaccine by vaccine |
| Plots.StackedBarTotal | covid19dashboard/plots.py:31-35 | a stacked bar's height is the dose column's sum over the filtered rows of its country and age band |
| Plots.AgeGroupRows | covid19dashboard/plots.py:96 | each age-group row carries its (country, age band) and the three dose-column sums over that group's rows |
| Plots.AgeGroupTotals | covid19dashboard/plots.py:96 | each row's (country, age band) occurs in the table, and its three values are the column sums over that band's rows |
| Plots.AgeGroupTotalsKeys | covid19dashboard/plots.py:96 | no two rows of the age-group table share (country, age band), and every (country, age band) of the table has a row |
| Plots.AgeGroupTotalsConserve | covid19dashboard/plots.py:96 | summing a dose column of the age-group table gives that column's sum over the whole table |
| Plots.StackedBarMatchesAgeGroup | covid19dashboard/plots.py:31-35 | with no date window, a stacked bar's height equals the age-group chart's bar for the same country, age band and dose type |
| Plots.PercentageDosePerAgeGroupAndVaccineType.constructor | covid19dashboard/plots.py:16-23 | country "ES", no date window, the vaccine list of the table, and the pivot table over every row |
| Plots.PercentageDosePerAgeGroupAndVaccineType.ComputeData | covid19dashboard/plots.py:25-36 | the pivot table is recomputed from the whole table and the stored bounds; nothing else changes |
| Plots.PercentageDosePerAgeGroupAndVaccineType.RecomputeSource | covid19dashboard/plots.py:38-40 | the pivot table is recomputed and handed to the column source |
| Plots.PercentageDosePerAgeGroupAndVaccineType.Build | covid19dashboard/plots.py:42-55 | the column source gets the pivot table and the view filter gets the current country |
| Plots.PercentageDosePerAgeGroupAndVaccineType.Update | covid19dashboard/plots.py:79-86 | a country selection changes only the country and the view filter; a date selection stores both bounds and recomputes the source from the whole table |
| Plots.PercentageDosePerAgeGroup.constructor | covid19dashboard/plots.py:91-96 | country "ES" and the per-(country, age band) sums, computed once |
| Plots.PercentageDosePerAgeGroup.Build | covid19dashboard/plots.py:98-102 | the view filter gets the current country |
| Plots.PercentageDosePerAgeGroup.Update | covid19dashboard/plots.py:122-124 | the country and the view filter become the selected country |
| Controllers.RemoveFirst | covid19dashboard/controllers.py:49-50 | removing an absent observer leaves the list unchanged; removing a present one shortens the list by one |
| Controllers.RemoveFirstMultiset | covid19dashboard/controllers.py:49-50 | exactly one copy of the observer goes, if there is one, and every other entry stays |
| Controllers.RemoveFirstAt | covid19dashboard/controllers.py:49-50 | only the first occurrence goes; the entries before and after it keep their order |
| Controllers.AttachThenDetach | covid19dashboard/controllers.py:46-50 | attaching an observer that was not attached, then detaching it, restores the list |
| Controllers.Trace | covid19dashboard/controllers.py:52-54 | the calls of one notification: one per observer, in list order, each passing the same source |
| Controllers.Deliver | covid19dashboard/controllers.py:54 | one `update` call leaves the chart showing what the selector carries and keeping what it does not concern: a country selection leaves the stacked chart's table, source and dates; a date selection leaves its country and view filter |
| Controllers.GenericObservable.constructor | covid19dashboard/controllers.py:43-44 | the observer list starts empty |
| Controllers.GenericObservable.Attach | covid19dashboard/controllers.py:46-47 | the observer is appended |
| Controllers.GenericObservable.Detach | covid19dashboard/controllers.py:49-50 | the first occurrence is removed; `found` is true iff the observer was attached |
| Controllers.GenericObservable.Notify | covid19dashboard/controllers.py:52-54 | each attached observer gets one `update` call, in list order; the list is unchanged; afterwards every attached chart shows what the selector carries and keeps every field the selection does not concern |
| Controllers.CountrySelector.constructor | covid19dashboard/controllers.py:59-63 | the value starts at "ES" and the observer list empty |
| Controllers.CountrySelector.SelectHandler | covid19dashboard/controllers.py:71-73 | the selected country is stored, then every observer is notified in order; each chart shows the country and keeps its table, source and dates |
| Controllers.MinDate | covid19dashboard/controllers.py:83 | the earliest Date of the table: it occurs in the table and no row is earlier; NaT (None) iff the table is empty |
| Controllers.MaxDate | covid19dashboard/controllers.py:84 | the latest Date of the table: it occurs in the table and no row is later; NaT (None) iff the table is empty |
| Controllers.DateRageSelector.constructor | covid19dashboard/controllers.py:78-84 | the bounds start at the earliest and latest Date of the preprocessed table, and the observer list empty |
| Controllers.DateRageSelector.SelectHandler | covid19dashboard/controllers.py:93-96 | both bounds are stored as given, with no ordering check, then every observer is notified in order; each chart shows the new window and keeps its country and view filter |
| Controllers.FullRangeDropsLatestDate | covid19dashboard/controllers.py:83-84 | over day numbers, the half-open window from the table's earliest to its latest Date keeps every row except those of the latest Date |

## Left out

- Reading and writing the CSV file and downloading it (`load_online`, `load_file`, `save`) are I/O and are not modelled. The `VaccinationData` constructor takes the raw rows that have been read.
- The bokeh rendering is not modelled: figures, bars, hover tools, legends, ranges, the column data source, the `GroupFilter` view, and the selector widgets with their `on_change` registration (`CountrySelector.build`, `DateRageSelector.build`). A chart's column source is modelled as the table handed to it, and its view as the country it filters on.
- The application wiring in `main.py` is not part of this model.
- Timestamps are not modelled. `DateRageSelector.SelectHandler` takes day numbers, not bokeh's millisecond timestamps, and the local-time conversion of `datetime.fromtimestamp` and times of day are not modelled.
- Controllers.FullRangeDropsLatestDate holds for day numbers only. In the program, `datetime.fromtimestamp` turns the slider's UTC-midnight bounds into local time. East of UTC both bounds then fall after midnight, so the earliest week drops out instead and the latest stays.
- DataHelper.AnnotateRow: `strptime` with `%V%G-%u` is modelled by its meaning, not its regular expression. The source concatenates Week, Year and `-1` into one string; for a year below 1000 or above 9999 that string can re-split. Week 12 of year 100 reads as week 1 of 2100. Week 1 of year 12021 reads as week 11 of 2021, a date inside the Timestamp range. The model rejects both, because the Monday of the week as given lies outside that range.
- YearWeek.ParseYearWeek accepts plain digit strings only. `pd.to_numeric`'s other numerals (signs, spaces, decimals, exponents) are not modelled.
- DataHelper.Annotate: a malformed year-week fails the whole table, where `str.split(expand=True)` or `to_numeric` raises. The model does not distinguish the different pandas errors.
- Categorical grouping and sort order are not modelled. The model's groups and pivot rows are the observed key combinations, in first-appearance order. Pandas sorts the group keys, and with `observed=False` it would also add rows for unobserved combinations of the categorical keys.
- Floating point is modelled by reals. A nonzero count over a zero denominator gives `inf` in pandas; the model has no `inf` and treats it like NaN (`None`). The chart sums skip NaN (`Plots.PercentSum`), as pandas `sum` does.
- DataHelper.GroupRowsAggregates takes the last row's values. Pandas `last` skips NaN, which the model's integer columns cannot hold.
- DataHelper.VaccinationData.Preprocess: when conversion fails, pandas raises part-way, after `data` was overwritten with the filtered copy. The model leaves `data` unchanged and returns the error.
- The two charts take the preprocessed table once, at construction (`Plots.PercentageDosePerAgeGroupAndVaccineType.table`). The source reads `vaccination_data.data` each time it recomputes. The two agree unless `preprocess` runs again after the charts are built.
- Controllers.CountrySelector.constructor does not take the `VaccinationData`. The source uses it only in `build`, for the list of countries.
- The selectors hold a `GenericObservable` (`subject`) instead of inheriting from it. The abstract `Observer` and `Observable` classes become the `Observer` datatype, with one variant per chart class.
- Controllers.GenericObservable.Notify passes the observers a `Source` value, not the selector itself. Only the two selectors ever notify.
- Plots.PercentageDosePerAgeGroup.Update requires a country selection. With a date selector, the source fails, because `DateRageSelector` has no `value`.
- Controllers.GenericObservable.Detach of an observer that is not attached returns `found = false` and leaves the list unchanged, where `list.remove` raises `ValueError`.
- Controllers.MinDate / Controllers.MaxDate: on an empty table pandas gives NaT; the model gives `None`. A chart given `None` bounds does not filter. A table the model preprocesses is never empty.
- Integers are unbounded; the int64 width of the pandas columns is not modelled.
- DataHelper.VaccineName keeps an unknown vaccine code unchanged instead of rejecting it, as the code does.
- Controllers.DateRageSelector.SelectHandler stores an inverted range (start after end), as the code does, instead of rejecting it. The chart then shows no rows (`Plots.InvertedWindowIsEmpty`).
