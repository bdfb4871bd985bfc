// scripts/logseq_tracker.py: daily life logging into Logseq journal pages.
// Modelled here: the journal file name of a date, the log line an activity
// becomes and where in the journal it is inserted, the (empty) task lists
// of a day, the 7-day window of a weekly report and the trend it reports.
// The files, the clock and the regular expressions that read a day's
// ratings are parameters.

module LogseqTracker {
  import opened Common

  // ---------------------------------------------------------------------
  // Journal file names

  datatype Date = Date(year: nat, month: nat, day: nat)

  /** A calendar date as strftime pads it to four year digits. */
  predicate ValidDate(d: Date) {
    1000 <= d.year <= 9999 && 1 <= d.month <= 12 && 1 <= d.day <= 31
  }

  /** get_today_journal_path: `%Y_%m_%d.md`. */
  function JournalName(d: Date): (r: string)
    requires ValidDate(d)
    ensures |r| == 13
    ensures r[4] == '_' && r[7] == '_' && r[10..] == ".md"
  {
    assert Pow10(4) == 10000 && Pow10(2) == 100;
    PadWidth(d.year, 4);
    PadWidth(d.month, 2);
    PadWidth(d.day, 2);
    ZeroPad(d.year, 4) + "_" + ZeroPad(d.month, 2) + "_" + ZeroPad(d.day, 2) + ".md"
  }

  lemma {:induction false} NatToStringLength(n: nat, k: nat)
    requires n < Pow10(k)
    ensures |NatToString(n)| <= if k == 0 then 1 else k
  {
    if n >= 10 {
      Pow10Small(k);
      NatToStringLength(n / 10, k - 1);
    }
  }

  function Pow10(k: nat): nat {
    if k == 0 then 1 else 10 * Pow10(k - 1)
  }

  lemma Pow10Small(k: nat)
    ensures k < 2 ==> Pow10(k) <= 10
  {
  }

  /** The padded field of a number below 10^width is exactly width long. */
  lemma PadWidth(n: nat, width: nat)
    requires 1 <= width && n < Pow10(width)
    ensures |ZeroPad(n, width)| == width
  {
    NatToStringLength(n, width);
  }

  /** The name reads back as the date: the digits between the underscores
      are the year, the month and the day. */
  lemma JournalNameRoundTrip(d: Date)
    requires ValidDate(d)
    ensures var r := JournalName(d);
      && AllDigits(r[..4]) && AllDigits(r[5..7]) && AllDigits(r[8..10])
      && ParseDigits(r[..4]) == d.year && ParseDigits(r[5..7]) == d.month && ParseDigits(r[8..10]) == d.day
  {
    assert Pow10(4) == 10000;
    assert Pow10(2) == 100;
    PadWidth(d.year, 4);
    PadWidth(d.month, 2);
    PadWidth(d.day, 2);
    var y, m, dd := ZeroPad(d.year, 4), ZeroPad(d.month, 2), ZeroPad(d.day, 2);
    var r := JournalName(d);
    assert r == y + "_" + m + "_" + dd + ".md";
    assert r[..4] == y;
    assert r[5..7] == m;
    assert r[8..10] == dd;
    ParseZeroPad(d.year, 4);
    ParseZeroPad(d.month, 2);
    ParseZeroPad(d.day, 2);
  }

  // ---------------------------------------------------------------------
  // Log entries

  /** The category labels of the journal template, and the heading of a
      category; an unknown category logs under work. */
  const CategoryLabels: map<string, string> := map[
    "work" := "工作任务:", "study" := "学习任务:", "life" := "生活任务:", "health" := "健康任务:",
    "mood" := "心情指数:", "energy" := "能量水平:", "sleep" := "睡眠质量:"]

  function CategoryLabel(category: string): (r: string)
    ensures category in CategoryLabels ==> r == CategoryLabels[category]
    ensures category !in CategoryLabels ==> r == "工作任务:"
    ensures r in CategoryLabels.Values
  {
    assert CategoryLabels["work"] == "工作任务:";
    if category in CategoryLabels then CategoryLabels[category] else "工作任务:"
  }

  /** The log line of an activity at `time` ("%H:%M"): the duration in
      parentheses when given, the rating when truthy, and a final newline. */
  function LogEntry(time: string, content: string, rating: Option<int>, duration: Option<string>): (r: string)
    ensures "    - " + time + " " + content <= r
    ensures r != [] && r[|r| - 1] == '\n'
    ensures Truthy(duration) ==> "    - " + time + " " + content + " (" + duration.value + ") " <= r
    ensures !Truthy(duration) ==> "    - " + time + " " + content + " " <= r
    ensures rating.Some? && rating.value != 0 ==>
              var tag := "[评分: " + IntToString(rating.value) + "/10]\n";
              |tag| <= |r| && r[|r| - |tag|..] == tag
    ensures !(rating.Some? && rating.value != 0) ==> 2 <= |r| && r[|r| - 2..] == " \n"
  {
    var head, score := EntryHead(time, content, duration), EntryScore(rating);
    assert head <= head + score + "\n";
    assert (score + "\n") == (head + score + "\n")[|head|..];
    head + score + "\n"
  }

  /** The time, the content and the duration in parentheses when given. */
  function EntryHead(time: string, content: string, duration: Option<string>): (r: string)
    ensures '\n' !in time && '\n' !in content && (duration.Some? ==> '\n' !in duration.value) ==> '\n' !in r
  {
    if Truthy(duration) then "    - " + time + " " + content + " (" + duration.value + ") "
    else "    - " + time + " " + content + " "
  }

  /** The rating, when it is truthy. */
  function EntryScore(rating: Option<int>): (r: string)
    ensures r == "" <==> !(rating.Some? && rating.value != 0)
  {
    if rating.Some? && rating.value != 0 then "[评分: " + IntToString(rating.value) + "/10]" else ""
  }

  /** No piece of an entry holds a line break: the entry is one line of the
      journal. */
  lemma EntryIsOneLine(time: string, content: string, rating: Option<int>, duration: Option<string>)
    requires '\n' !in time && '\n' !in content
    requires duration.Some? ==> '\n' !in duration.value
    ensures CountIn(LogEntry(time, content, rating, duration), {'\n'}) == 1
  {
    var head := EntryHead(time, content, duration);
    var score := EntryScore(rating);
    assert LogEntry(time, content, rating, duration) == head + score + "\n";
    IntegerTextHasNoBreak(rating);
    assert forall c :: c in head + score ==> c !in {'\n'};
    CountInNone(head + score, {'\n'});
    CountInAppend(head + score, "\n", {'\n'});
    assert CountIn("\n", {'\n'}) == 1;
  }

  lemma IntegerTextHasNoBreak(rating: Option<int>)
    ensures rating.Some? ==> '\n' !in IntToString(rating.value)
  {
    if rating.Some? {
      var s := IntToString(rating.value);
      var n := if rating.value < 0 then -rating.value else rating.value;
      assert AllDigits(NatToString(n));
      assert s == NatToString(n) || s == "-" + NatToString(n);
    }
  }

  /** The index of the first line containing the heading. */
  function FirstLineWith(lines: seq<string>, heading: string): (r: Option<nat>)
    ensures r.Some? ==> r.value < |lines| && Contains(lines[r.value], heading)
                        && forall j :: 0 <= j < r.value ==> !Contains(lines[j], heading)
    ensures r.None? <==> forall j :: 0 <= j < |lines| ==> !Contains(lines[j], heading)
  {
    if lines == [] then None
    else if Contains(lines[0], heading) then Some(0)
    else
      var rest := FirstLineWith(lines[1..], heading);
      if rest.None? then None else Some(rest.value + 1)
  }

  /** The lines of a journal page (as readlines gives them) while
      log_activity edits them. */
  class Journal {
    var lines: seq<string>

    constructor (lines: seq<string>)
      ensures this.lines == lines
    {
      this.lines := lines;
    }

    /** log_activity: the entry goes directly after the first line holding
        the category's heading; with no such line nothing changes. */
    method LogActivity(category: string, entry: string)
      modifies this
      ensures var k := FirstLineWith(old(lines), CategoryLabel(category));
        && (k.None? ==> lines == old(lines))
        && (k.Some? ==> lines == old(lines)[..k.value + 1] + [entry] + old(lines)[k.value + 1..])
    {
      var heading := CategoryLabel(category);
      var i := 0;
      while i < |lines|
        invariant 0 <= i <= |lines| && lines == old(lines)
        invariant forall j :: 0 <= j < i ==> !Contains(lines[j], heading)
      {
        if Contains(lines[i], heading) {
          assert FirstLineWith(lines, heading) == Some(i) by {
            FirstLineIs(lines, heading, i);
          }
          lines := lines[..i + 1] + [entry] + lines[i + 1..];
          return;
        }
        i := i + 1;
      }
    }
  }

  lemma FirstLineIs(lines: seq<string>, heading: string, i: nat)
    requires i < |lines| && Contains(lines[i], heading)
    requires forall j :: 0 <= j < i ==> !Contains(lines[j], heading)
    ensures FirstLineWith(lines, heading) == Some(i)
  {
    var r := FirstLineWith(lines, heading);
    assert r.Some?;
    if r.value < i {
    } else if r.value > i {
    }
  }

  /** The insertion adds exactly one line and keeps every other line in its
      order: deleting the new line gives back the journal, and the entry
      sits right below the heading line. */
  lemma InsertionKeepsOtherLines(lines: seq<string>, k: nat, entry: string)
    requires k < |lines|
    ensures var after := lines[..k + 1] + [entry] + lines[k + 1..];
      && |after| == |lines| + 1
      && after[k] == lines[k] && after[k + 1] == entry
      && after[..k + 1] + after[k + 2..] == lines
      && multiset(after) == multiset(lines) + multiset{entry}
  {
    var after := lines[..k + 1] + [entry] + lines[k + 1..];
    assert after[..k + 1] == lines[..k + 1];
    assert after[k + 2..] == lines[k + 1..];
    assert lines == lines[..k + 1] + lines[k + 1..];
  }

  // ---------------------------------------------------------------------
  // Daily data and the weekly report

  const TaskCategories: set<string> := {"工作任务:", "学习任务:", "生活任务:", "健康任务:"}

  /** _extract_tasks: each of the four task categories maps to an empty
      list. */
  function ExtractTasks(content: string): (r: map<string, seq<string>>)
    ensures r.Keys == TaskCategories
    ensures forall c :: c in r ==> r[c] == []
  {
    map c | c in TaskCategories :: []
  }

  /** The ratings read from one day's journal (None when absent). */
  datatype DayData = DayData(mood: Option<int>, energy: Option<int>)

  /** Python's date.weekday() of a proleptic Gregorian ordinal (day 1 is
      Monday 0001-01-01): 0 for Monday. */
  function Weekday(ordinal: int): (r: nat)
    ensures r < 7
  {
    (ordinal + 6) % 7
  }

  /** The first day read by generate_weekly_report(weeks_back). */
  function WeekStart(today: int, weeksBack: nat): (r: int)
    ensures r <= today - 7 * weeksBack < r + 7
  {
    today - (Weekday(today) + weeksBack * 7)
  }

  /** The window is the Monday-to-Sunday week containing the day
      `weeks_back` weeks before today. */
  lemma WeekWindow(today: int, weeksBack: nat)
    ensures Weekday(WeekStart(today, weeksBack)) == 0
    ensures WeekStart(today, weeksBack) <= today - weeksBack * 7 < WeekStart(today, weeksBack) + 7
  {
    var s := WeekStart(today, weeksBack);
    var w := Weekday(today);
    assert s + 6 == (today + 6) - w - weeksBack * 7;
    assert (today + 6) - w == ((today + 6) / 7) * 7;
    assert s + 6 == ((today + 6) / 7 - weeksBack) * 7;
  }

  /** The non-zero values, in order (`[x for x in xs if x]`). */
  function Present(xs: seq<Option<int>>): (r: seq<int>)
    ensures |r| <= |xs|
    ensures forall v :: v in r ==> v != 0
  {
    if xs == [] then []
    else
      var x := xs[|xs| - 1];
      Present(xs[..|xs| - 1]) + (if x.Some? && x.value != 0 then [x.value] else [])
  }

  /** The trend of a series of ratings. */
  function Trend(values: seq<int>): (r: string)
    ensures r == "上升" <==> |values| > 1 && values[|values| - 1] > values[0]
    ensures r != "上升" ==> r == "稳定"
  {
    if |values| > 1 && values[|values| - 1] > values[0] then "上升" else "稳定"
  }

  /** The ratings of a column of the week, in order. */
  function Moods(week: seq<DayData>): (r: seq<Option<int>>)
    ensures |r| == |week| && forall i :: 0 <= i < |week| ==> r[i] == week[i].mood
  {
    seq(|week|, i requires 0 <= i < |week| => week[i].mood)
  }

  function Energies(week: seq<DayData>): (r: seq<Option<int>>)
    ensures |r| == |week| && forall i :: 0 <= i < |week| ==> r[i] == week[i].energy
  {
    seq(|week|, i requires 0 <= i < |week| => week[i].energy)
  }

  /** The text returned for a week without any journal. */
  const NoDataReport: string := "本周暂无数据"

  /** The parts of the weekly analysis the model keeps: the number of days
      recorded, the ratings each average is taken over, and the trends; or
      the text returned when nothing was recorded. */
  datatype WeeklyAnalysis =
    | NoData(message: string)
    | Analysis(days: nat, moods: seq<int>, energies: seq<int>, moodTrend: string, energyTrend: string)

  /** _analyze_weekly_data. */
  function AnalyzeWeek(week: seq<DayData>): (r: WeeklyAnalysis)
    ensures r.NoData? <==> week == []
    ensures r.NoData? ==> r.message == NoDataReport
    ensures r.Analysis? ==> r.days == |week| && |r.moods| <= |week| && |r.energies| <= |week|
    ensures r.Analysis? ==> (r.moodTrend == "上升" <==> |r.moods| > 1 && r.moods[|r.moods| - 1] > r.moods[0])
    ensures r.Analysis? ==> (r.energyTrend == "上升" <==> |r.energies| > 1 && r.energies[|r.energies| - 1] > r.energies[0])
  {
    if week == [] then NoData(NoDataReport)
    else
      var moods := Present(Moods(week));
      var energies := Present(Energies(week));
      Analysis(|week|, moods, energies, Trend(moods), Trend(energies))
  }

  /** The averaged ratings are exactly the non-zero ones, in day order. */
  lemma {:induction false} PresentMembership(xs: seq<Option<int>>, v: int)
    ensures v in Present(xs) <==> v != 0 && Some(v) in xs
  {
    if xs != [] {
      var init := xs[..|xs| - 1];
      PresentMembership(init, v);
      assert xs == init + [xs[|xs| - 1]];
    }
  }

  /** generate_weekly_report: the days of the window that have a journal,
      analysed; `daily(ordinal)` is extract_daily_data of that day. */
  method GenerateWeeklyReport(today: int, weeksBack: nat, daily: int -> Option<DayData>)
    returns (week: seq<DayData>, analysis: WeeklyAnalysis)
    ensures week == FilterMap(seq(7, i => WeekStart(today, weeksBack) + i), daily)
    ensures |week| <= 7
    ensures analysis == AnalyzeWeek(week)
  {
    var start := WeekStart(today, weeksBack);
    ghost var days := seq(7, i => start + i);
    week := [];
    for i := 0 to 7
      invariant week == FilterMap(days[..i], daily)
    {
      assert days[..i + 1][..i] == days[..i];
      var data := daily(start + i);
      if data.Some? {
        week := week + [data.value];
      } else {
        assert week + [] == week;
      }
    }
    assert days[..7] == days;
    analysis := AnalyzeWeek(week);
  }
}
