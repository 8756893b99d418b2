/** formatDate: the month-and-year text of a `YYYY-MM` date, as the
    browser's `toLocaleDateString('en-US', {month: 'short', year: 'numeric'})`
    prints the JavaScript date `new Date(year, month - 1)`. */
module Dates {
  import opened JsString

  /** The `en-US` short month names. The names themselves are given by
      FormatDateExample and FormatDateExampleEnd; MonthAbbrevInjective says
      no two months share one. */
  function MonthAbbrev(m: nat): (name: string)
    requires 1 <= m <= 12
    ensures |name| == 3
  {
    ["Jan", "Feb", "Mar", "Apr", "May", "Jun", "Jul", "Aug", "Sep", "Oct", "Nov", "Dec"][m - 1]
  }

  /** Different months have different names. */
  lemma MonthAbbrevInjective(m: nat, n: nat)
    requires 1 <= m <= 12 && 1 <= n <= 12
    ensures MonthAbbrev(m) == MonthAbbrev(n) <==> m == n
  {
  }

  /** Four digits, '-', two digits, and a month between 01 and 12: the form
      the month inputs of the profile editor produce. */
  predicate IsYearMonth(s: string)
  {
    |s| == 7 && AllDigits(s[..4]) && s[4] == '-' && AllDigits(s[5..])
    && 1 <= DecimalValue(s[5..]) <= 12
  }

  /** parseInt of the part before the '-'. */
  function YearOf(s: string): nat
    requires IsYearMonth(s)
  {
    DecimalValue(s[..4])
  }

  /** parseInt of the part after the '-'. */
  function MonthOf(s: string): (m: nat)
    requires IsYearMonth(s)
    ensures 1 <= m <= 12
  {
    DecimalValue(s[5..])
  }

  /** The year JavaScript's Date constructor makes of a year argument: 0 to
      99 are read as 1900 to 1999. */
  function FullYear(y: nat): (fy: nat)
    ensures fy >= 100
    ensures y <= 99 ==> fy == 1900 + y
    ensures y >= 100 ==> fy == y
  {
    if y <= 99 then 1900 + y else y
  }

  /** formatDate. The empty string formats to the empty string; a `YYYY-MM`
      date to its month name, a space and the full year; any other text to
      whatever the platform's date routines make of it, given here as
      `otherDate`. */
  function FormatDate(s: string, otherDate: string -> string): (r: string)
    ensures s == "" ==> r == ""
    ensures IsYearMonth(s) ==>
              r == MonthAbbrev(MonthOf(s)) + " " + NatToString(FullYear(YearOf(s)))
    ensures s != "" && !IsYearMonth(s) ==> r == otherDate(s)
  {
    if s == "" then ""
    else if IsYearMonth(s) then MonthAbbrev(MonthOf(s)) + " " + NatToString(FullYear(YearOf(s)))
    else otherDate(s)
  }

  /** A formatted `YYYY-MM` date is never empty and starts with the month. */
  lemma FormattedShape(s: string, otherDate: string -> string)
    requires IsYearMonth(s)
    ensures var r := FormatDate(s, otherDate);
            |r| >= 5 && r[..3] == MonthAbbrev(MonthOf(s)) && r[3] == ' '
            && AllDigits(r[4..]) && DecimalValue(r[4..]) == FullYear(YearOf(s))
  {
    var r := FormatDate(s, otherDate);
    assert r[4..] == NatToString(FullYear(YearOf(s)));
  }

  /** Digit strings of the same length and value are the same string. */
  lemma {:induction false} DigitsDetermined(a: string, b: string)
    requires AllDigits(a) && AllDigits(b) && |a| == |b|
    requires DecimalValue(a) == DecimalValue(b)
    ensures a == b
    decreases |a|
  {
    if a != [] {
      var n := |a| - 1;
      assert AllDigits(a[..n]) && AllDigits(b[..n]);
      var da, db := DigitValue(a[n]), DigitValue(b[n]);
      assert da == db by {
        assert 10 * DecimalValue(a[..n]) + da == 10 * DecimalValue(b[..n]) + db;
      }
      DigitsDetermined(a[..n], b[..n]);
      assert a == a[..n] + [a[n]] && b == b[..n] + [b[n]];
    }
  }

  /** A `YYYY-MM` date is determined by its year and month numbers. */
  lemma YearMonthDetermined(s: string, t: string)
    requires IsYearMonth(s) && IsYearMonth(t)
    requires YearOf(s) == YearOf(t) && MonthOf(s) == MonthOf(t)
    ensures s == t
  {
    DigitsDetermined(s[..4], t[..4]);
    DigitsDetermined(s[5..], t[5..]);
    assert s == s[..4] + [s[4]] + s[5..];
    assert t == t[..4] + [t[4]] + t[5..];
  }

  /** From year 100 on, formatting loses nothing: two dates print the same
      exactly when they are the same date. */
  lemma FormatDateInjective(s: string, t: string, otherDate: string -> string)
    requires IsYearMonth(s) && IsYearMonth(t) && YearOf(s) >= 100 && YearOf(t) >= 100
    ensures FormatDate(s, otherDate) == FormatDate(t, otherDate) <==> s == t
  {
    if FormatDate(s, otherDate) == FormatDate(t, otherDate) {
      FormattedShape(s, otherDate);
      FormattedShape(t, otherDate);
      MonthAbbrevInjective(MonthOf(s), MonthOf(t));
      YearMonthDetermined(s, t);
    }
  }

  /** The value of a two-digit string. */
  lemma DecimalValue2(s: string)
    requires AllDigits(s) && |s| == 2
    ensures DecimalValue(s) == 10 * DigitValue(s[0]) + DigitValue(s[1])
  {
    var a := s[..1];
    assert a[..0] == [] && a[0] == s[0];
    assert DecimalValue(a) == DigitValue(s[0]);
  }

  /** The value of a four-digit string. */
  lemma DecimalValue4(s: string)
    requires AllDigits(s) && |s| == 4
    ensures DecimalValue(s) == 1000 * DigitValue(s[0]) + 100 * DigitValue(s[1])
                               + 10 * DigitValue(s[2]) + DigitValue(s[3])
  {
    var a := s[..3];
    DecimalValue2(a[..2]);
    assert a[..2][0] == s[0] && a[..2][1] == s[1] && a[2] == s[2];
  }

  /** The year and month numbers of a concrete date. */
  lemma ReadYearMonth(s: string, y: nat, m: nat)
    requires |s| == 7 && AllDigits(s[..4]) && s[4] == '-' && AllDigits(s[5..])
    requires 1000 * DigitValue(s[0]) + 100 * DigitValue(s[1]) + 10 * DigitValue(s[2]) + DigitValue(s[3]) == y
    requires 10 * DigitValue(s[5]) + DigitValue(s[6]) == m && 1 <= m <= 12
    ensures IsYearMonth(s) && YearOf(s) == y && MonthOf(s) == m
  {
    DecimalValue4(s[..4]);
    DecimalValue2(s[5..]);
  }

  /** Years 0 to 99 are printed as 1900 to 1999, so year 20 and year 1920
      print alike. */
  lemma TwoDigitYearsAre1900s(otherDate: string -> string)
    ensures FormatDate("0020-01", otherDate) == FormatDate("1920-01", otherDate) == "Jan 1920"
  {
    ReadYearMonth("0020-01", 20, 1);
    ReadYearMonth("1920-01", 1920, 1);
    assert NatToString(1920) == "1920" by {
      assert NatToString(192) == "192" by {
        assert NatToString(19) == "19";
      }
    }
  }

  /** The month inputs of the editor produce dates such as these. */
  lemma FormatDateExample(otherDate: string -> string)
    ensures FormatDate("2021-07", otherDate) == "Jul 2021"
  {
    ReadYearMonth("2021-07", 2021, 7);
    assert NatToString(2021) == "2021" by {
      assert NatToString(202) == "202" by {
        assert NatToString(20) == "20";
      }
    }
  }

  /** The end date of the sample education entry. */
  lemma FormatDateExampleEnd(otherDate: string -> string)
    ensures FormatDate("2016-05", otherDate) == "May 2016"
  {
    ReadYearMonth("2016-05", 2016, 5);
    assert NatToString(2016) == "2016" by {
      assert NatToString(201) == "201" by {
        assert NatToString(20) == "20";
      }
    }
  }
}
