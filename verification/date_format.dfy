/**
 * The two fr-FR renderings the fill pass asks of a Date: `toLocaleDateString` with
 * 2-digit day and month and numeric year (DD/MM/YYYY), and `toLocaleTimeString` with
 * 2-digit hour and minute on a 24-hour clock (HH:mm). Each has a parser partner.
 */
module DateFormat {
  import opened Wrappers
  import opened Values

  /** A two-digit, zero-padded rendering of 0..99. */
  function Pad2(n: int): (r: string)
    requires 0 <= n <= 99
    ensures |r| == 2 && AllDigits(r)
    ensures DecimalValue(r) == n
  {
    var r := [DigitChar(n / 10), DigitChar(n % 10)];
    assert r[..1] == [r[0]] && r[..1][..0] == [];
    assert DecimalValue(r[..1]) == n / 10;
    r
  }

  /** DD/MM/YYYY with the year unpadded, as the "numeric" year option prints it. */
  function FormatDate(d: DateParts): (r: string)
    ensures |r| >= 7 && r[2] == '/' && r[5] == '/'
    ensures r[..2] == Pad2(d.day) && r[3..5] == Pad2(d.month) && r[6..] == NatToDecimal(d.year)
  {
    var dd, mm, yy := Pad2(d.day), Pad2(d.month), NatToDecimal(d.year);
    var r := dd + "/" + mm + "/" + yy;
    assert r[..2] == dd && r[3..5] == mm && r[6..] == yy;
    r
  }

  /** HH:mm on a 24-hour clock. */
  function FormatTime(d: DateParts): (r: string)
    ensures |r| == 5 && r[2] == ':'
    ensures r[..2] == Pad2(d.hour) && r[3..] == Pad2(d.minute)
  {
    var hh, mm := Pad2(d.hour), Pad2(d.minute);
    var r := hh + ":" + mm;
    assert r[..2] == hh && r[3..] == mm;
    r
  }

  datatype DayMonthYear = DayMonthYear(day: int, month: int, year: int)
  datatype HourMinute = HourMinute(hour: int, minute: int)

  /** Reads DD/MM/Y… back; None for any other shape. */
  function ParseDate(s: string): Option<DayMonthYear>
  {
    if |s| >= 7 && s[2] == '/' && s[5] == '/'
       && AllDigits(s[..2]) && AllDigits(s[3..5]) && AllDigits(s[6..])
    then Some(DayMonthYear(DecimalValue(s[..2]), DecimalValue(s[3..5]), DecimalValue(s[6..])))
    else None
  }

  /** Reads HH:mm back; None for any other shape. */
  function ParseTime(s: string): Option<HourMinute>
  {
    if |s| == 5 && s[2] == ':' && AllDigits(s[..2]) && AllDigits(s[3..])
    then Some(HourMinute(DecimalValue(s[..2]), DecimalValue(s[3..])))
    else None
  }

  /** The date text has the DD/MM/YYYY shape and reads back as the same calendar day. */
  lemma FormatDateRoundTrip(d: DateParts)
    ensures |FormatDate(d)| >= 7 && FormatDate(d)[2] == '/' && FormatDate(d)[5] == '/'
    ensures ParseDate(FormatDate(d)) == Some(DayMonthYear(d.day, d.month, d.year))
  {
    var s := FormatDate(d);
    var dd, mm, yy := Pad2(d.day), Pad2(d.month), NatToDecimal(d.year);
    assert s == dd + "/" + mm + "/" + yy;
    assert s[..2] == dd;
    assert s[3..5] == mm;
    assert s[6..] == yy;
  }

  /** The time text is exactly five characters HH:mm and reads back as the same hour and minute. */
  lemma FormatTimeRoundTrip(d: DateParts)
    ensures |FormatTime(d)| == 5 && FormatTime(d)[2] == ':'
    ensures ParseTime(FormatTime(d)) == Some(HourMinute(d.hour, d.minute))
  {
    var s := FormatTime(d);
    var hh, mm := Pad2(d.hour), Pad2(d.minute);
    assert s == hh + ":" + mm;
    assert s[..2] == hh;
    assert s[3..] == mm;
  }

  /** 5 March 2024 at 14:30 renders as "05/03/2024" and "14:30". */
  lemma FormatExample()
    ensures FormatDate(DateParts(5, 3, 2024, 14, 30)) == "05/03/2024"
    ensures FormatTime(DateParts(5, 3, 2024, 14, 30)) == "14:30"
  {
    assert NatToDecimal(2) == "2";
    assert NatToDecimal(20) == "20";
    assert NatToDecimal(202) == "202";
    assert NatToDecimal(2024) == "2024";
  }
}
