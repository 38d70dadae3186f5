/**
 * Reading the `YearWeekISO` column ("2021-W05") into a year and a week number: the string is
 * split at '-', the first part read as a number, and the second read as a number after
 * dropping its first character.
 */
module YearWeek {
  import opened Wrappers

  predicate IsDigit(c: char) {
    '0' <= c <= '9'
  }

  /** A non-empty string of decimal digits. */
  predicate IsNumeral(s: string) {
    |s| > 0 && forall i :: 0 <= i < |s| ==> IsDigit(s[i])
  }

  /** The value of a string of decimal digits. */
  function NumeralValue(s: string): nat
    requires forall i :: 0 <= i < |s| ==> IsDigit(s[i])
  {
    if s == [] then 0
    else
      assert IsDigit(s[|s| - 1]);
      10 * NumeralValue(s[..|s| - 1]) + (s[|s| - 1] as int - '0' as int)
  }

  function Pow10(k: nat): nat {
    if k == 0 then 1 else 10 * Pow10(k - 1)
  }

  /** `n` written with exactly `width` digits, zero-padded on the left. */
  function Numeral(n: nat, width: nat): (s: string)
    ensures |s| == width
    ensures forall i :: 0 <= i < |s| ==> IsDigit(s[i])
  {
    if width == 0 then []
    else Numeral(n / 10, width - 1) + [('0' as int + n % 10) as char]
  }

  /** Number of '-' characters in `s`. */
  function Dashes(s: string): nat {
    if s == [] then 0
    else (if s[0] == '-' then 1 else 0) + Dashes(s[1..])
  }

  /** Index of the first '-' in `s`, or `|s|` when there is none. */
  function DashIndex(s: string): (i: nat)
    ensures i <= |s|
    ensures i < |s| ==> s[i] == '-'
    ensures forall k :: 0 <= k < i ==> s[k] != '-'
  {
    if s == [] || s[0] == '-' then 0 else 1 + DashIndex(s[1..])
  }

  /**
   * (Year, Week) from a `YearWeekISO` value, or None where the column split or the number
   * conversion fails: not exactly one '-', or a part that is not a numeral.
   * The character after the '-' is dropped whatever it is.
   */
  function ParseYearWeek(s: string): (r: Option<(nat, nat)>)
    ensures r.Some? ==> Dashes(s) == 1 && IsNumeral(s[..DashIndex(s)])
  {
    var i := DashIndex(s);
    if i == |s| || Dashes(s) != 1 then None
    else
      var year, rest := s[..i], s[i + 1..];
      if IsNumeral(year) && |rest| >= 1 && IsNumeral(rest[1..]) then
        Some((NumeralValue(year), NumeralValue(rest[1..])))
      else None
  }

  /** The "YYYY-Www" spelling of a year and a week, with `sep` in place of the 'W'. */
  function FormatYearWeek(year: nat, week: nat, sep: char): string {
    Numeral(year, 4) + "-" + [sep] + Numeral(week, 2)
  }

  lemma {:induction false} NumeralRoundTrip(n: nat, width: nat)
    requires n < Pow10(width)
    ensures NumeralValue(Numeral(n, width)) == n
  {
    if width > 0 {
      NumeralRoundTrip(n / 10, width - 1);
      var s := Numeral(n, width);
      assert s[..|s| - 1] == Numeral(n / 10, width - 1);
    }
  }

  lemma {:induction false} NoDashesInNumeral(s: string)
    requires forall i :: 0 <= i < |s| ==> IsDigit(s[i])
    ensures Dashes(s) == 0
  {
    if s != [] {
      NoDashesInNumeral(s[1..]);
    }
  }

  lemma {:induction false} DashesAppend(a: string, b: string)
    ensures Dashes(a + b) == Dashes(a) + Dashes(b)
  {
    if a == [] {
      assert a + b == b;
    } else {
      assert (a + b)[0] == a[0];
      assert (a + b)[1..] == a[1..] + b;
      DashesAppend(a[1..], b);
    }
  }

  /**
   * Every year of four digits and week of two digits reads back from its "YYYY-Www"
   * spelling, whatever character stands in the place of the 'W' (other than '-').
   */
  lemma YearWeekRoundTrip(year: nat, week: nat, sep: char)
    requires year <= 9999 && week <= 99 && sep != '-'
    ensures ParseYearWeek(FormatYearWeek(year, week, sep)) == Some((year, week))
  {
    var y, w := Numeral(year, 4), Numeral(week, 2);
    var s := FormatYearWeek(year, week, sep);
    assert s == y + ("-" + ([sep] + w));
    NoDashesInNumeral(y);
    NoDashesInNumeral(w);
    DashesAppend(y, "-" + ([sep] + w));
    DashesAppend([sep], w);
    assert Dashes("-" + ([sep] + w)) == 1 + Dashes([sep] + w);
    DashIndexAfterNumeral(y, "-" + ([sep] + w));
    assert s[..4] == y;
    assert s[5..][1..] == w;
    assert Pow10(4) == 10000 && Pow10(2) == 100;
    NumeralRoundTrip(year, 4);
    NumeralRoundTrip(week, 2);
  }

  lemma DashIndexAfterNumeral(a: string, b: string)
    requires forall i :: 0 <= i < |a| ==> IsDigit(a[i])
    requires |b| > 0 && b[0] == '-'
    ensures DashIndex(a + b) == |a|
  {
    if a != [] {
      assert (a + b)[1..] == a[1..] + b;
      DashIndexAfterNumeral(a[1..], b);
    }
  }
}
