/** The sale date: reading `dateOfSale` as `YYYY-MM-DD` and printing its month as `MM`, as `moment` does. */
module Dates {
  import opened Wrappers
  import opened Text

  datatype Date = Date(year: nat, month: nat, day: nat)

  predicate IsLeapYear(y: nat) {
    (y % 4 == 0 && y % 100 != 0) || y % 400 == 0
  }

  function DaysInMonth(y: nat, m: nat): nat
    requires 1 <= m <= 12
  {
    if m == 2 then (if IsLeapYear(y) then 29 else 28)
    else if m == 4 || m == 6 || m == 9 || m == 11 then 30
    else 31
  }

  predicate AllDigits(s: string) {
    forall i :: 0 <= i < |s| ==> IsDigit(s[i])
  }

  /** The string begins with four digits, a dash, two digits, a dash and two digits; anything after that is ignored. */
  predicate HasDateShape(s: string) {
    |s| >= 10 && AllDigits(s[0..4]) && s[4] == '-' && AllDigits(s[5..7]) && s[7] == '-' && AllDigits(s[8..10])
  }

  /** Reads the leading `YYYY-MM-DD` of `s`; a month outside 1..12 or a day past the month's end is invalid. */
  function ParseDate(s: string): (r: Option<Date>)
    ensures r.Some? ==> HasDateShape(s)
    ensures r.Some? ==> 1 <= r.value.month <= 12 && 1 <= r.value.day <= DaysInMonth(r.value.year, r.value.month)
    ensures r.Some? ==> r.value == Date(DigitsValue(s[0..4]), DigitsValue(s[5..7]), DigitsValue(s[8..10]))
    ensures (HasDateShape(s) && 1 <= DigitsValue(s[5..7]) <= 12
             && 1 <= DigitsValue(s[8..10]) <= DaysInMonth(DigitsValue(s[0..4]), DigitsValue(s[5..7]))) ==> r.Some?
  {
    if !HasDateShape(s) then None
    else
      var y, m, d := DigitsValue(s[0..4]), DigitsValue(s[5..7]), DigitsValue(s[8..10]);
      if 1 <= m <= 12 && 1 <= d <= DaysInMonth(y, m) then Some(Date(y, m, d)) else None
  }

  /** What `moment` prints for an unparseable date. */
  const InvalidDate: string := "Invalid date"

  function TwoDigits(n: nat): (r: string)
    requires n < 100
    ensures |r| == 2 && AllDigits(r) && DigitsValue(r) == n
  {
    var r := [DigitChar(n / 10), DigitChar(n % 10)];
    TwoDigitValue(r);
    r
  }

  lemma TwoDigitValue(s: string)
    requires |s| == 2 && AllDigits(s)
    ensures DigitsValue(s) == DigitValue(s[0]) * 10 + DigitValue(s[1])
  {
    var head := s[..1];
    assert head[..0] == [] && head[0] == s[0];
    assert DigitsValue(head) == DigitValue(s[0]);
    assert DigitsValue(s) == DigitsValue(head) * 10 + DigitValue(s[1]);
  }

  /** A year below 10000 written with four digits. */
  function FourDigits(n: nat): (r: string)
    requires n < 10000
    ensures |r| == 4 && AllDigits(r) && DigitsValue(r) == n
  {
    var r := [DigitChar(n / 1000), DigitChar(n / 100 % 10), DigitChar(n / 10 % 10), DigitChar(n % 10)];
    FourDigitValue(r);
    DecimalPlaces(n);
    r
  }

  lemma FourDigitValue(s: string)
    requires |s| == 4 && AllDigits(s)
    ensures DigitsValue(s) == ((DigitValue(s[0]) * 10 + DigitValue(s[1])) * 10 + DigitValue(s[2])) * 10 + DigitValue(s[3])
  {
    var three := s[..3];
    assert three[..2] == s[..2] && three[2] == s[2];
    TwoDigitValue(s[..2]);
    assert DigitsValue(three) == DigitsValue(s[..2]) * 10 + DigitValue(s[2]);
    assert DigitsValue(s) == DigitsValue(three) * 10 + DigitValue(s[3]);
  }

  /** A number below 10000 is recovered from its four decimal digits. */
  lemma DecimalPlaces(n: nat)
    requires n < 10000
    ensures ((n / 1000 * 10 + n / 100 % 10) * 10 + n / 10 % 10) * 10 + n % 10 == n
  {
    assert n / 100 == n / 1000 * 10 + n / 100 % 10;
    assert n / 10 == n / 100 * 10 + n / 10 % 10;
  }

  /** A date written as `YYYY-MM-DD`. */
  function FormatDate(d: Date): (r: string)
    requires d.year < 10000 && d.month < 100 && d.day < 100
    ensures |r| == 10
  {
    FourDigits(d.year) + "-" + TwoDigits(d.month) + "-" + TwoDigits(d.day)
  }

  /** A valid date written as `YYYY-MM-DD`, followed by anything, parses back to that date. */
  lemma ParseFormatRoundTrip(d: Date, rest: string)
    requires d.year < 10000 && 1 <= d.month <= 12 && 1 <= d.day <= DaysInMonth(d.year, d.month)
    ensures ParseDate(FormatDate(d) + rest) == Some(d)
  {
    var s := FormatDate(d) + rest;
    var yyyy, mm, dd := FourDigits(d.year), TwoDigits(d.month), TwoDigits(d.day);
    assert FormatDate(d) == yyyy + "-" + mm + "-" + dd;
    assert s[0..4] == yyyy && s[4] == '-' && s[5..7] == mm && s[7] == '-' && s[8..10] == dd;
    assert HasDateShape(s);
  }

  /** `moment(dateOfSale, 'YYYY-MM-DD').format('MM')`: the two-digit month, or "Invalid date". */
  function FormatMonth(dateOfSale: Option<string>): (r: string)
    ensures r == InvalidDate <==> dateOfSale.None? || ParseDate(dateOfSale.value).None?
    ensures r != InvalidDate ==> |r| == 2 && AllDigits(r) && 1 <= DigitsValue(r) <= 12
  {
    match dateOfSale
    case None => InvalidDate
    case Some(s) =>
      match ParseDate(s)
      case None => InvalidDate
      case Some(date) => TwoDigits(date.month)
  }

  /** The printed month is the month as written in the date string. */
  lemma FormatMonthIsWrittenMonth(s: string)
    requires ParseDate(s).Some?
    ensures FormatMonth(Some(s)) == s[5..7]
  {
    var mm := s[5..7];
    var r := FormatMonth(Some(s));
    TwoDigitValue(mm);
    TwoDigitValue(r);
    assert r == mm;
  }

  /** A sale on 15 July 2023 is in month "07". */
  lemma July15Example()
    ensures FormatMonth(Some("2023-07-15")) == "07"
  {
    var s := "2023-07-15";
    assert s[0..4] == "2023" && s[5..7] == "07" && s[8..10] == "15";
    TwoDigitValue("07");
    TwoDigitValue("15");
    assert HasDateShape(s);
    assert DigitsValue(s[5..7]) == 7 && DigitsValue(s[8..10]) == 15;
    FormatMonthIsWrittenMonth(s);
  }

  /** Only the leading `YYYY-MM-DD` decides the month: a time and zone after it are ignored. */
  lemma FormatMonthReadsPrefix(s: string)
    requires |s| >= 10
    ensures FormatMonth(Some(s)) == FormatMonth(Some(s[..10]))
  {
    var p := s[..10];
    assert p[0..4] == s[0..4] && p[5..7] == s[5..7] && p[8..10] == s[8..10] && p[4] == s[4] && p[7] == s[7];
  }

  /** A sale on 27 November 2021 is in month "11". */
  lemma November27Example()
    ensures FormatMonth(Some("2021-11-27")) == "11"
  {
    var s := "2021-11-27";
    assert s[0..4] == "2021" && s[5..7] == "11" && s[8..10] == "27";
    TwoDigitValue("11");
    TwoDigitValue("27");
    assert HasDateShape(s);
    assert DigitsValue(s[5..7]) == 11 && DigitsValue(s[8..10]) == 27;
    FormatMonthIsWrittenMonth(s);
  }

  /** A full timestamp as the dataset stores it is in the month it names. */
  lemma TimestampExample()
    ensures FormatMonth(Some("2021-11-27T20:29:54+05:30")) == "11"
  {
    var s := "2021-11-27T20:29:54+05:30";
    assert s[..10] == "2021-11-27";
    November27Example();
    FormatMonthReadsPrefix(s);
  }

  /** 30 February does not exist: moment reports the date as invalid, so it belongs to no month. */
  lemma February30Example()
    ensures ParseDate("2021-02-30") == None
    ensures FormatMonth(Some("2021-02-30")) == InvalidDate
  {
    var s := "2021-02-30";
    assert s[0..4] == "2021" && s[5..7] == "02" && s[8..10] == "30";
    TwoDigitValue("02");
    TwoDigitValue("30");
    assert DigitsValue(s[5..7]) == 2 && DigitsValue(s[8..10]) == 30;
    assert DaysInMonth(DigitsValue(s[0..4]), 2) <= 29;
  }
}
