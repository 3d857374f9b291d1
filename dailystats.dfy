// The daily statistics card (DailyStats): screen time shown as `Xh Ym`,
// a simulated usage of 180 minutes plus the time spent in the session, and
// the usage as a percentage of an 8-hour goal, capped at 100.

module DailyStats {
  import opened Wrappers
  import opened Strings

  /** Eight hours, in minutes. */
  const DailyGoal := 480

  function DurationText(hours: nat, mins: nat): string
  {
    NatToString(hours) + "h " + NatToString(mins) + "m"
  }

  /** `formatTime(minutes)`. */
  function FormatTime(minutes: nat): string
  {
    var split := SplitSixty(minutes);
    DurationText(split.0, split.1)
  }

  /** Reads `Xh Ym` back as `X * 60 + Y`, for `Y` below 60. */
  function ParseDuration(t: string): Option<nat>
  {
    match IndexOf(t, 'h')
    case None => None
    case Some(k) => DurationFields(t[..k], t[k + 1..])
  }

  /** The value of `h` hours followed by `rest`, which must be ` Ym`. */
  function DurationFields(h: string, rest: string): Option<nat>
  {
    if h != [] && AllDigits(h) && |rest| >= 3 && rest[0] == ' ' && rest[|rest| - 1] == 'm'
       && AllDigits(rest[1..|rest| - 1]) && DecimalValue(rest[1..|rest| - 1]) < 60
    then Some(DecimalValue(h) * 60 + DecimalValue(rest[1..|rest| - 1]))
    else None
  }

  lemma DurationTextParses(hours: nat, mins: nat)
    requires mins < 60
    ensures ParseDuration(DurationText(hours, mins)) == Some(hours * 60 + mins)
  {
    var h := NatToString(hours);
    var m := NatToString(mins);
    var rest := " " + m + "m";
    ParseDurationSplit(h, rest);
    assert DurationText(hours, mins) == h + ['h'] + rest;
    DurationFieldsValue(h, m);
  }

  /** The `h` after a numeral splits the text into that numeral and the
      rest. */
  lemma ParseDurationSplit(h: string, rest: string)
    requires AllDigits(h)
    ensures ParseDuration(h + ['h'] + rest) == DurationFields(h, rest)
  {
    IndexAfterDigits(h, 'h', rest);
  }

  lemma DurationFieldsValue(h: string, m: string)
    requires h != [] && AllDigits(h) && m != [] && AllDigits(m) && DecimalValue(m) < 60
    ensures DurationFields(h, " " + m + "m") == Some(DecimalValue(h) * 60 + DecimalValue(m))
  {
    var rest := " " + m + "m";
    assert rest[1..|rest| - 1] == m;
  }

  /** The text reads back as the number of minutes it shows. */
  lemma FormatTimeRoundTrip(minutes: nat)
    ensures ParseDuration(FormatTime(minutes)) == Some(minutes)
  {
    var split := SplitSixty(minutes);
    DurationTextParses(split.0, split.1);
  }

  /** The daily goal displays as "8h 0m". */
  lemma GoalText()
    ensures FormatTime(DailyGoal) == "8h 0m"
  {
  }

  /** `currentUsage`: the simulated 180 minutes plus the session's time. */
  function CurrentUsage(timeSpent: nat): (u: nat)
    ensures u >= 180 && u - timeSpent == 180
  {
    180 + timeSpent
  }

  /** The screen-time figure reads back as the simulated 180 minutes plus
      the session's time, and shows at least three hours. */
  lemma UsageText(timeSpent: nat)
    ensures ParseDuration(FormatTime(CurrentUsage(timeSpent))) == Some(180 + timeSpent)
    ensures SplitSixty(CurrentUsage(timeSpent)).0 >= 3
  {
    FormatTimeRoundTrip(CurrentUsage(timeSpent));
  }

  /** `progressPercentage`: `Math.min(currentUsage / dailyGoal * 100, 100)`. */
  function ProgressPercentage(timeSpent: nat): real
  {
    var p := (CurrentUsage(timeSpent) as real / DailyGoal as real) * 100.0;
    if p < 100.0 then p else 100.0
  }

  /** The bar is at least 37.5 % full, never more than 100 %, and full
      exactly once usage reaches the goal; below it, it grows with usage. */
  lemma ProgressBounds(timeSpent: nat, more: nat)
    ensures 37.5 <= ProgressPercentage(timeSpent) <= 100.0
    ensures ProgressPercentage(timeSpent) == 100.0 <==> CurrentUsage(timeSpent) >= DailyGoal
    ensures ProgressPercentage(timeSpent) <= ProgressPercentage(timeSpent + more)
  {
  }
}
