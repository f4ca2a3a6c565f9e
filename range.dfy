/**
 * The dashboard's date-range picker: the presets and the custom range, the
 * query parameters sent to the server for each, and the label shown for
 * each. Dates are `YYYY-MM-DD` strings; the clock is a parameter.
 */
module DashboardRange {

  datatype Range =
    | Today
    | Last7
    | Last30
    | Last90
    | Custom(start: string, end: string)

  /** The two `YYYY-MM-DD` days the 90-day preset covers, read from the clock. */
  datatype ClockDays = ClockDays(today: string, eightyNineDaysAgo: string)

  function IsoStart(day: string): (s: string)
    ensures |s| == |day| + 14 && s[..|day|] == day
  {
    day + "T00:00:00.000Z"
  }

  function IsoEnd(day: string): (s: string)
    ensures |s| == |day| + 14 && s[..|day|] == day
  {
    day + "T23:59:59.999Z"
  }

  /** The range names the server accepts. */
  predicate ServerRange(name: string) {
    name == "today" || name == "7d" || name == "30d" || name == "custom"
  }

  /**
   * `toQueryParams(range)`: the presets the server knows are sent by name,
   * the 90-day preset as a custom range ending today, and a custom range as
   * the start of its first day and the end of its last.
   */
  function ToQueryParams(range: Range, clock: ClockDays): (q: map<string, string>)
    ensures "range" in q && ServerRange(q["range"])
    ensures q["range"] == "custom" <==> range.Custom? || range.Last90?
    ensures q.Keys == if q["range"] == "custom" then {"range", "from", "to"} else {"range"}
    ensures range.Custom? ==> q["from"] == IsoStart(range.start) && q["to"] == IsoEnd(range.end)
    ensures range.Last90? ==> q["from"] == IsoStart(clock.eightyNineDaysAgo) && q["to"] == IsoEnd(clock.today)
  {
    match range
    case Today => map["range" := "today"]
    case Last7 => map["range" := "7d"]
    case Last30 => map["range" := "30d"]
    case Last90 =>
      map["range" := "custom", "from" := IsoStart(clock.eightyNineDaysAgo), "to" := IsoEnd(clock.today)]
    case Custom(start, end) =>
      map["range" := "custom", "from" := IsoStart(start), "to" := IsoEnd(end)]
  }

  /** The 90-day preset is indistinguishable on the wire from the custom range over the same days. */
  lemma Last90IsCustom(clock: ClockDays)
    ensures ToQueryParams(Last90, clock) == ToQueryParams(Custom(clock.eightyNineDaysAgo, clock.today), clock)
  {
  }

  /** A custom range's days can be read back from its query parameters. */
  lemma CustomDaysRecoverable(start: string, end: string, clock: ClockDays)
    ensures var q := ToQueryParams(Custom(start, end), clock);
      q["from"][..|start|] == start && q["to"][..|end|] == end
  {
  }

  /** `todayRange()`: a custom range whose first and last day are both today. */
  function TodayRange(clock: ClockDays): (r: Range)
    ensures r.Custom? && r.start == r.end == clock.today
  {
    Custom(clock.today, clock.today)
  }

  /**
   * The arrow placed between the two days of a custom label, as the source
   * file spells it: the UTF-8 bytes of U+2192 read back as Windows-1252,
   * that is "â†’" instead of "→".
   */
  const LabelArrowAsWritten: string := "\U{00E2}\U{2020}\U{2019}"

  /** The arrow the label evidently means. */
  const LabelArrow: string := "\U{2192}"

  function PresetLabel(range: Range): (s: string)
    requires !range.Custom?
  {
    match range
    case Today => "Today"
    case Last7 => "Last 7 days"
    case Last30 => "Last 30 days"
    case Last90 => "Last 90 days"
  }

  /** `labelFor(range)` as the source spells it. */
  function LabelForAsWritten(range: Range): (s: string)
    ensures range.Custom? ==> s == range.start + " " + LabelArrowAsWritten + " " + range.end
    ensures !range.Custom? ==> s == PresetLabel(range)
  {
    if range.Custom? then range.start + " " + LabelArrowAsWritten + " " + range.end
    else PresetLabel(range)
  }

  /** The custom label as written never shows the arrow it means. */
  lemma LabelAsWrittenLacksArrow(start: string, end: string)
    ensures LabelArrow[0] !in LabelForAsWritten(Custom("2025-01-01", "2025-01-31"))
    ensures LabelForAsWritten(Custom(start, end)) != start + " " + LabelArrow + " " + end
  {
    assert |LabelForAsWritten(Custom(start, end))| == |start| + |end| + 5;
  }

  /** `labelFor(range)` with the arrow it means: fixed labels for presets, "start → end" for a custom range. */
  function LabelFor(range: Range): (s: string)
    ensures range.Custom? ==> s == range.start + " " + LabelArrow + " " + range.end
    ensures !range.Custom? ==> s == PresetLabel(range)
  {
    if range.Custom? then range.start + " " + LabelArrow + " " + range.end
    else PresetLabel(range)
  }

  /** Distinct presets carry distinct labels, and a custom label can be split back into its two days. */
  lemma LabelsDistinguishRanges(a: Range, b: Range)
    requires !a.Custom? && !b.Custom? && a != b
    ensures LabelFor(a) != LabelFor(b)
  {
  }

  lemma CustomLabelSplits(start: string, end: string)
    ensures var s := LabelFor(Custom(start, end));
      s[..|start|] == start && s[|start| + 3..] == end && s[|start|..|start| + 3] == " \U{2192} "
  {
  }
}
