/** The query window of `energy_etl.py`: from 24 hours before "now" to
    "now", both written `yyyyMMddHH00`. */
module LoadWindow {
  import opened Wrappers
  import opened Text
  import opened Calendar

  /** `t.strftime("%Y%m%d%H00")`: the year's digits, then month, day and hour
      on two digits each, then a literal `00` for the minutes. */
  function StampText(t: DateTime): string
    requires ValidDateTime(t)
  {
    DecimalDigits(t.date.year) + Pad2(t.date.month) + Pad2(t.date.day) + Pad2(t.hour) + "00"
  }

  /** `t - timedelta(days=1)`: the same time of day on the previous date. */
  function DayEarlier(t: DateTime): (r: DateTime)
    requires ValidDateTime(t) && t.date != FirstDate
    ensures ValidDateTime(r)
  {
    t.(date := PrevDay(t.date))
  }

  datatype Window = Window(periodStart: string, periodEnd: string)

  /** `start_date` and `end_date`, computed once from "now". */
  function QueryWindow(now: DateTime): Window
    requires ValidDateTime(now) && now.date != FirstDate
  {
    Window(StampText(DayEarlier(now)), StampText(now))
  }

  /** Reads a `yyyyMMddHHmm` stamp back into its date, hour and minute. */
  function ParseStamp(s: string): Option<(Date, int, int)>
  {
    if |s| != 12 || !AllDigits(s) then None
    else
      Some((Date(ParseDigits(s[..4]), ParseDigits(s[4..6]), ParseDigits(s[6..8])),
            ParseDigits(s[8..10]), ParseDigits(s[10..])))
  }

  /** For four-digit years a stamp has twelve digits, ends in the minutes
      `00`, and reads back as the date and hour it was made from. */
  lemma StampRoundTrip(t: DateTime)
    requires ValidDateTime(t) && 1000 <= t.date.year <= 9999
    ensures var s := StampText(t);
      |s| == 12 && s[10..] == "00" && ParseStamp(s) == Some((t.date, t.hour, 0))
  {
    var y, m, d, h := DecimalDigits(t.date.year), Pad2(t.date.month), Pad2(t.date.day), Pad2(t.hour);
    DecimalDigitsOfYear(t.date.year);
    var s := StampText(t);
    assert s[..4] == y && s[4..6] == m && s[6..8] == d && s[8..10] == h && s[10..] == "00";
    ParseDecimalDigits(t.date.year);
    ParsePad2(t.date.month);
    ParsePad2(t.date.day);
    ParsePad2(t.hour);
    assert "00"[..1] == "0" && "0"[..0] == [];
    assert ParseDigits("00") == 0;
  }

  /** `periodStart` is exactly one day before `periodEnd`: same hour, the
      previous calendar date; both are twelve digits ending in `00`. */
  lemma QueryWindowSpansOneDay(now: DateTime)
    requires ValidDateTime(now) && 1000 < now.date.year <= 9999
    ensures var w := QueryWindow(now);
      |w.periodStart| == 12 && |w.periodEnd| == 12
      && w.periodStart[10..] == "00" && w.periodEnd[10..] == "00"
      && ParseStamp(w.periodEnd) == Some((now.date, now.hour, 0))
      && ParseStamp(w.periodStart) == Some((PrevDay(now.date), now.hour, 0))
      && NextDay(PrevDay(now.date)) == now.date
  {
    StampRoundTrip(now);
    StampRoundTrip(DayEarlier(now));
  }
}
