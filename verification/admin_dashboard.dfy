/** The hour labels of the admin dashboard's hourly charts. */
module AdminDashboard {
  import opened Common
  import opened Text

  /** The hour on a 12-hour clock face. */
  function ClockHour(hour: int): (h: int)
    requires 0 <= hour < 24
    ensures 1 <= h <= 12
    ensures h % 12 == hour % 12
  {
    if hour % 12 == 0 then 12 else hour % 12
  }

  /** formatHourLabel: 0 is "12 AM", 12 is "12 PM", later hours count from
      12 with "PM", earlier ones keep their value with "AM". Any int is
      accepted; the SQL HOUR() that feeds it yields 0..23, and for those the
      label is the clock-face hour followed by " AM" before noon and " PM" from
      noon on. */
  function FormatHourLabel(hour: int): (r: string)
    ensures 0 <= hour < 24 ==> r == DecimalString(ClockHour(hour)) + (if hour < 12 then " AM" else " PM")
  {
    if hour == 0 then
      assert DecimalString(12) == "12";
      "12 AM"
    else if hour == 12 then
      assert DecimalString(12) == "12";
      "12 PM"
    else if hour > 12 then
      assert hour < 24 ==> ClockHour(hour) == hour - 12;
      IntString(hour - 12) + " PM"
    else
      assert 0 <= hour ==> ClockHour(hour) == hour;
      IntString(hour) + " AM"
  }

  /** The 24-hour value of a clock-face hour before or after noon. */
  function To24(n: int, pm: bool): int {
    if pm then (if n == 12 then 12 else n + 12) else (if n == 12 then 0 else n)
  }

  /** Reads a label back to a 24-hour value: "<n> AM" or "<n> PM" with n a
      decimal numeral in 1..12. */
  function ParseHourLabel(s: string): Option<int> {
    if |s| < 4 then None
    else
      var number, suffix := s[..|s| - 3], s[|s| - 3..];
      if !IsDigits(number) || (suffix != " AM" && suffix != " PM") then None
      else
        var n := ParseDecimal(number);
        if n < 1 || n > 12 then None else Some(To24(n, suffix == " PM"))
  }

  lemma ParseClockLabel(n: int, pm: bool)
    requires 1 <= n <= 12
    ensures ParseHourLabel(DecimalString(n) + (if pm then " PM" else " AM")) == Some(To24(n, pm))
  {
    var d := DecimalString(n);
    var suffix := if pm then " PM" else " AM";
    var s := d + suffix;
    assert s[..|s| - 3] == d;
    assert s[|s| - 3..] == suffix;
    DecimalRoundTrip(n);
  }

  /** Every hour of the day reads back from its label, so no two hours share one. */
  lemma HourLabelRoundTrip(hour: int)
    requires 0 <= hour < 24
    ensures ParseHourLabel(FormatHourLabel(hour)) == Some(hour)
  {
    var n, pm := ClockHour(hour), hour >= 12;
    var shown := DecimalString(n) + (if pm then " PM" else " AM");
    assert To24(n, pm) == hour;
    assert ParseHourLabel(shown) == Some(hour) by { ParseClockLabel(n, pm); }
    assert FormatHourLabel(hour) == shown;
  }

  lemma HourLabelsInjective(h1: int, h2: int)
    requires 0 <= h1 < 24 && 0 <= h2 < 24
    requires FormatHourLabel(h1) == FormatHourLabel(h2)
    ensures h1 == h2
  {
    HourLabelRoundTrip(h1);
    HourLabelRoundTrip(h2);
  }

  /** The four cases of the label at the hours that bound them. */
  lemma HourLabelExamples()
    ensures FormatHourLabel(0) == "12 AM"
    ensures FormatHourLabel(12) == "12 PM"
    ensures FormatHourLabel(13) == "1 PM"
    ensures FormatHourLabel(11) == "11 AM"
    ensures FormatHourLabel(23) == "11 PM"
  {
  }

  /** Outside 0..23 the code still answers: 24 reads "12 PM" and -1 reads "-1 AM". */
  lemma HourLabelOutOfRange()
    ensures FormatHourLabel(24) == "12 PM"
    ensures FormatHourLabel(-1) == "-1 AM"
  {
  }
}
