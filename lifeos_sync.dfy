// scripts/lifeos_sync.py: the morning OmniFocus -> Logseq sync writes each
// exported task as a Logseq checkbox line and plans the morning around the
// flagged tasks; the evening sync reads back the ticked lines and replays
// their status into OmniFocus. The export (an AppleScript run), the journal
// files, the regular expressions that find ticked lines and the AppleScript
// calls are parameters here.

module LifeOsSync {
  import opened Common

  /** A task of the OmniFocus export; each field is None when its key is
      missing. */
  datatype OmniTask = OmniTask(name: Option<string>, project: Option<string>, context: Option<string>,
                               estimatedMinutes: Option<int>, flagged: Option<bool>, id: Option<string>)

  predicate IsFlagged(t: OmniTask) {
    t.flagged.GetOr(false)
  }

  // ---------------------------------------------------------------------
  // Task lines

  const FlagIcon: string := "\U{1F525} "
  const TimerIcon: string := "\U{23F1}\U{FE0F}"

  predicate NonBlank(s: string) {
    s != ""
  }

  /** The parts of a task line before empty ones are dropped; `newId` is the
      uuid prefix used when the task has no id. */
  function LineParts(t: OmniTask, newId: string): (r: seq<string>)
    ensures |r| == 5
    ensures r[0] == (if IsFlagged(t) then FlagIcon else "") + t.name.GetOr("Untitled")
    ensures r[1] == "" <==> t.project.GetOr("Inbox") == "Inbox"
    ensures r[2] == "" <==> t.context.GetOr("") == ""
    ensures r[2] != "" ==> r[2] == "@" + t.context.value
    ensures r[3] == "" <==> t.estimatedMinutes.GetOr(0) <= 0
    ensures r[3] != "" ==> r[3] == TimerIcon + IntToString(t.estimatedMinutes.value) + "min"
    ensures r[4] == "&of:" + t.id.GetOr(newId)
  {
    var name := t.name.GetOr("Untitled");
    var project := t.project.GetOr("Inbox");
    var context := t.context.GetOr("");
    var estimated := t.estimatedMinutes.GetOr(0);
    [ (if IsFlagged(t) then FlagIcon else "") + name,
      if project != "Inbox" then "`[" + project + "]`" else "",
      if context != "" then "@" + context else "",
      if estimated > 0 then TimerIcon + IntToString(estimated) + "min" else "",
      "&of:" + t.id.GetOr(newId) ]
  }

  /** format_task_for_logseq: "- [ ] " and the non-empty parts joined by
      spaces. */
  function FormatTask(t: OmniTask, newId: string): (r: string)
    ensures "- [ ] " <= r
    ensures r[|"- [ ] "|..] == Join(" ", Filter(LineParts(t, newId), NonBlank))
  {
    "- [ ] " + Join(" ", Filter(LineParts(t, newId), NonBlank))
  }

  lemma {:induction false} JoinEndsWithLast(sep: string, parts: seq<string>)
    requires parts != []
    ensures ContainsSuffixOf(Join(sep, parts), parts[|parts| - 1])
  {
    if |parts| > 1 {
      JoinEndsWithLast(sep, parts[1..]);
      var rest := Join(sep, parts[1..]);
      var k := |rest| - |parts[|parts| - 1]|;
      assert parts[0] + sep + rest == (parts[0] + sep) + rest;
      assert (parts[0] + sep + rest)[|parts[0] + sep| + k..] == rest[k..];
    }
  }

  /** s ends with suffix. */
  predicate ContainsSuffixOf(s: string, suffix: string) {
    |suffix| <= |s| && s[|s| - |suffix|..] == suffix
  }

  lemma {:induction false} FilterLast<T>(s: seq<T>, p: T -> bool)
    requires s != [] && p(s[|s| - 1])
    ensures Filter(s, p) != [] && Filter(s, p)[|Filter(s, p)| - 1] == s[|s| - 1]
  {
    FilterAppend(s[..|s| - 1], [s[|s| - 1]], p);
    assert s == s[..|s| - 1] + [s[|s| - 1]];
  }

  lemma {:induction false} FilterFirst<T>(s: seq<T>, p: T -> bool)
    requires s != [] && p(s[0])
    ensures Filter(s, p) != [] && Filter(s, p)[0] == s[0]
  {
    FilterAppend([s[0]], s[1..], p);
    assert s == [s[0]] + s[1..];
  }

  /** The line always ends in the OmniFocus id marker the evening sync
      looks for, and a flagged task's line starts with the fire icon. */
  lemma TaskLineShape(t: OmniTask, newId: string)
    ensures ContainsSuffixOf(FormatTask(t, newId), "&of:" + t.id.GetOr(newId))
    ensures IsFlagged(t) ==> "- [ ] " + FlagIcon <= FormatTask(t, newId)
  {
    var parts := LineParts(t, newId);
    var kept := Filter(parts, NonBlank);
    FilterLast(parts, NonBlank);
    PrefixedJoinEndsWithLast("- [ ] ", " ", kept);
    if IsFlagged(t) {
      FilterFirst(parts, NonBlank);
      JoinStartsWithFirst("- [ ] ", " ", kept, FlagIcon);
    }
  }

  lemma PrefixedJoinEndsWithLast(prefix: string, sep: string, parts: seq<string>)
    requires parts != []
    ensures ContainsSuffixOf(prefix + Join(sep, parts), parts[|parts| - 1])
  {
    JoinEndsWithLast(sep, parts);
    var j := Join(sep, parts);
    var last := parts[|parts| - 1];
    assert (prefix + j)[|prefix + j| - |last|..] == j[|j| - |last|..];
  }

  lemma JoinStartsWithFirst(prefix: string, sep: string, parts: seq<string>, start: string)
    requires parts != [] && start <= parts[0]
    ensures prefix + start <= prefix + Join(sep, parts)
  {
    if |parts| > 1 {
      assert Join(sep, parts) == parts[0] + sep + Join(sep, parts[1..]);
    }
  }

  /** The project tag appears only for a project other than Inbox, and a
      missing name reads as Untitled. */
  lemma TaskLineDefaults(t: OmniTask, newId: string)
    ensures t.project.GetOr("Inbox") == "Inbox" ==> LineParts(t, newId)[1] == ""
    ensures t.project.GetOr("Inbox") != "Inbox" ==> LineParts(t, newId)[1] == "`[" + t.project.value + "]`"
    ensures t.name.None? && !IsFlagged(t) ==> LineParts(t, newId)[0] == "Untitled"
  {
  }

  // ---------------------------------------------------------------------
  // The flagged partition

  function HighPriority(tasks: seq<OmniTask>): (r: seq<OmniTask>)
    ensures |r| <= |tasks| && forall i :: 0 <= i < |r| ==> IsFlagged(r[i])
  {
    Filter(tasks, IsFlagged)
  }

  function Regular(tasks: seq<OmniTask>): (r: seq<OmniTask>)
    ensures |r| <= |tasks| && forall i :: 0 <= i < |r| ==> !IsFlagged(r[i])
  {
    Filter(tasks, (t: OmniTask) => !IsFlagged(t))
  }

  /** generate_logseq_journal lists the flagged tasks, then the others: each
      list keeps the export order, a task is in exactly one of them, and
      together they hold every task. */
  lemma PartitionCoversTasks(tasks: seq<OmniTask>)
    ensures multiset(HighPriority(tasks)) + multiset(Regular(tasks)) == multiset(tasks)
    ensures forall t :: t in HighPriority(tasks) <==> t in tasks && IsFlagged(t)
    ensures forall t :: t in Regular(tasks) <==> t in tasks && !IsFlagged(t)
  {
    FilterPartition(tasks, IsFlagged, (t: OmniTask) => !IsFlagged(t));
    forall t ensures t in HighPriority(tasks) <==> t in tasks && IsFlagged(t) {
      FilterMembership(tasks, IsFlagged, t);
    }
    forall t ensures t in Regular(tasks) <==> t in tasks && !IsFlagged(t) {
      FilterMembership(tasks, (t: OmniTask) => !IsFlagged(t), t);
    }
  }

  // ---------------------------------------------------------------------
  // Time blocks

  /** sum(task.get('estimatedMinutes', 30) for task in tasks). */
  function TotalEstimated(tasks: seq<OmniTask>): (r: int)
    ensures (forall i :: 0 <= i < |tasks| ==> tasks[i].estimatedMinutes.None?) ==> r == 30 * |tasks|
    ensures (forall i :: 0 <= i < |tasks| ==> tasks[i].estimatedMinutes.GetOr(30) >= 0) ==> r >= 0
  {
    if tasks == [] then 0
    else TotalEstimated(tasks[..|tasks| - 1]) + tasks[|tasks| - 1].estimatedMinutes.GetOr(30)
  }

  const TableHeader: string := "| 时间 | 任务 | 预计时间 |\n|------|------|----------|\n"
  const DefaultTable: string :=
    "| 时间 | 任务 | 预计时间 |\n|------|------|----------|\n| 09:00-12:00 | 深度工作 | 3h |\n| 13:30-15:30 | 常规任务 | 2h |\n| 16:00-17:30 | 沟通协调 | 1.5h |"
  const AfternoonRows: string := "| 13:30-15:30 | 其他重要任务 | 2h |\n| 16:00-17:30 | 沟通协调 | 1.5h |\n"

  /** The hours of the i-th morning block for a task of d minutes. */
  function BlockHours(i: nat, d: int): (r: (nat, nat))
    ensures r.0 == 9 + 2 * i
    ensures r.1 == r.0 + (if d >= 120 then d / 60 else 1)
  {
    var start := 9 + 2 * i;
    (start, start + (if 1 >= d / 60 then 1 else d / 60))
  }

  /** "{h}h" for whole hours, "{h}h{m}min" otherwise, h = d // 60 and
      m = d % 60 (Python floor division and modulo). */
  function DurationLabel(d: int): (r: string)
    ensures IntToString(d / 60) + "h" <= r
    ensures d % 60 == 0 <==> r == IntToString(d / 60) + "h"
    ensures d % 60 != 0 ==> r == IntToString(d / 60) + "h" + IntToString(d % 60) + "min"
  {
    var h := IntToString(d / 60);
    if d % 60 > 0 then h + "h" + IntToString(d % 60) + "min" else h + "h"
  }

  /** The row of the i-th flagged task; None when the task has no name
      (task['name'] raises KeyError). */
  function BlockRow(i: nat, t: OmniTask): (r: Option<string>)
    ensures r.None? <==> t.name.None?
    ensures r.Some? ==>
              var d := t.estimatedMinutes.GetOr(60);
              var name := t.name.value;
              r.value == "| " + ZeroPad(9 + 2 * i, 2) + ":00-" + ZeroPad(BlockHours(i, d).1, 2) + ":00 | "
                         + name[..if |name| < 20 then |name| else 20] + "... | " + DurationLabel(d) + " |\n"
  {
    if t.name.None? then None
    else
      var d := t.estimatedMinutes.GetOr(60);
      var (start, end) := BlockHours(i, d);
      var name := t.name.value;
      Some("| " + ZeroPad(start, 2) + ":00-" + ZeroPad(end, 2) + ":00 | " + name[..if |name| < 20 then |name| else 20]
           + "... | " + DurationLabel(d) + " |\n")
  }

  /** The rows of the scheduled tasks, numbered from 0; None when one of
      them fails. */
  function BlockRows(ts: seq<OmniTask>): (r: Option<string>)
    ensures ts != [] && ts[|ts| - 1].name.None? ==> r.None?
  {
    if ts == [] then Some("")
    else
      var init := BlockRows(ts[..|ts| - 1]);
      var row := BlockRow(|ts| - 1, ts[|ts| - 1]);
      if init.None? || row.None? then None else Some(init.value + row.value)
  }

  /** The flagged tasks the morning can hold: the first three. */
  function Scheduled(tasks: seq<OmniTask>): (r: seq<OmniTask>)
    ensures |r| == if |HighPriority(tasks)| < 3 then |HighPriority(tasks)| else 3
    ensures r <= HighPriority(tasks)
  {
    var high := HighPriority(tasks);
    if |high| <= 3 then high else high[..3]
  }

  /** generate_time_blocks: the default table when the estimates sum to 0
      (in particular for no tasks); otherwise the header, one row per
      scheduled flagged task and the two afternoon rows. None when a
      scheduled task has no name. */
  function TimeBlocks(tasks: seq<OmniTask>): (r: Option<string>)
    ensures TotalEstimated(tasks) == 0 ==> r == Some(DefaultTable)
    ensures TotalEstimated(tasks) != 0 && r.Some? ==> TableHeader <= r.value
    ensures TotalEstimated(tasks) != 0 && r.Some? ==>
              BlockRows(Scheduled(tasks)).Some?
              && r.value == TableHeader + BlockRows(Scheduled(tasks)).value + AfternoonRows
  {
    if TotalEstimated(tasks) == 0 then Some(DefaultTable)
    else
      var rows := BlockRows(Scheduled(tasks));
      if rows.None? then None else Some(TableHeader + rows.value + AfternoonRows)
  }

  /** With a non-zero total the table fails exactly when one of the (at most
      three) scheduled flagged tasks has no name. */
  lemma TimeBlocksFailIff(tasks: seq<OmniTask>)
    requires TotalEstimated(tasks) != 0
    ensures TimeBlocks(tasks).None? <==> exists t :: t in Scheduled(tasks) && t.name.None?
  {
    BlockRowsFailIff(Scheduled(tasks));
  }

  /** The loop of generate_time_blocks. */
  method GenerateTimeBlocks(tasks: seq<OmniTask>) returns (r: Option<string>)
    ensures r == TimeBlocks(tasks)
  {
    var total := 0;
    for k := 0 to |tasks|
      invariant total == TotalEstimated(tasks[..k])
    {
      assert tasks[..k + 1][..k] == tasks[..k];
      total := total + tasks[k].estimatedMinutes.GetOr(30);
    }
    assert tasks[..|tasks|] == tasks;
    if total == 0 {
      return Some(DefaultTable);
    }
    var morning := Scheduled(tasks);
    var rows := "";
    for i := 0 to |morning|
      invariant BlockRows(morning[..i]) == Some(rows)
    {
      BlockRowsStep(morning, i);
      var row := BlockRow(i, morning[i]);
      if row.None? {
        NoRowsAfterFailure(morning, i + 1);
        assert morning[..|morning|] == morning;
        return None;
      }
      rows := rows + row.value;
    }
    assert morning[..|morning|] == morning;
    r := Some(TableHeader + rows + AfternoonRows);
  }

  lemma BlockRowsStep(ts: seq<OmniTask>, i: nat)
    requires i < |ts|
    ensures var init, row := BlockRows(ts[..i]), BlockRow(i, ts[i]);
            BlockRows(ts[..i + 1]) == if init.None? || row.None? then None else Some(init.value + row.value)
  {
    assert ts[..i + 1][..i] == ts[..i];
  }

  /** The rows fail exactly when some scheduled task has no name. */
  lemma {:induction false} BlockRowsFailIff(ts: seq<OmniTask>)
    ensures BlockRows(ts).None? <==> exists t :: t in ts && t.name.None?
  {
    if ts != [] {
      var n := |ts| - 1;
      BlockRowsFailIff(ts[..n]);
      BlockRowsLast(ts);
      assert ts == ts[..n] + [ts[n]];
    }
  }

  /** One more scheduled task: the rows fail when they failed before or
      when that task has no name. */
  lemma BlockRowsLast(ts: seq<OmniTask>)
    requires ts != []
    ensures BlockRows(ts).None? <==> BlockRows(ts[..|ts| - 1]).None? || ts[|ts| - 1].name.None?
  {
  }

  lemma {:induction false} NoRowsAfterFailure(ts: seq<OmniTask>, k: nat)
    requires k <= |ts| && BlockRows(ts[..k]).None?
    ensures BlockRows(ts).None?
    decreases |ts| - k
  {
    if k < |ts| {
      assert ts[..k + 1][..k] == ts[..k];
      NoRowsAfterFailure(ts, k + 1);
    } else {
      assert ts[..k] == ts;
    }
  }

  /** The morning holds at most three blocks, block i starts at 9 + 2i and
      lasts max(1, d // 60) hours, so it always ends after it starts. */
  lemma MorningBlocks(tasks: seq<OmniTask>, i: nat)
    requires i < |Scheduled(tasks)|
    ensures |Scheduled(tasks)| <= 3
    ensures var (start, end) := BlockHours(i, Scheduled(tasks)[i].estimatedMinutes.GetOr(60));
            start == 9 + 2 * i && start < end && start <= 13
    ensures IsFlagged(Scheduled(tasks)[i])
  {
    var high := HighPriority(tasks);
    assert Scheduled(tasks)[i] in high;
    FilterMembership(tasks, IsFlagged, Scheduled(tasks)[i]);
  }

  // ---------------------------------------------------------------------
  // Evening: updates and the status guard

  const Statuses: seq<string> := ["completed", "cancelled", "deferred"]

  /** A status update read from the journal: OmniFocus id, status, notes. */
  datatype Update = Update(taskId: string, status: string, notes: string)

  /** The position of a status in the extraction order. */
  function Rank(status: string): nat {
    if status == "completed" then 0 else if status == "cancelled" then 1 else 2
  }

  /** The updates of one status, in match order. */
  function UpdatesFor(status: string, ids: seq<string>, notes: string -> string): (r: seq<Update>)
    ensures |r| == |ids|
    ensures forall u :: u in r ==> u.status == status
  {
    seq(|ids|, i requires 0 <= i < |ids| => Update(ids[i], status, notes(ids[i])))
  }

  /** extract_task_updates_from_logseq: `matches(status)` are the ids on
      the journal's ticked lines of that status, `notes(id)` the notes read
      from the id's line; no journal gives no updates. */
  method ExtractTaskUpdates(journal: Option<string -> seq<string>>, notes: string -> string)
    returns (updates: seq<Update>)
    ensures journal.None? ==> updates == []
    ensures journal.Some? ==>
              updates == UpdatesFor(Statuses[0], journal.value(Statuses[0]), notes)
                         + UpdatesFor(Statuses[1], journal.value(Statuses[1]), notes)
                         + UpdatesFor(Statuses[2], journal.value(Statuses[2]), notes)
  {
    if journal.None? {
      return [];
    }
    var matches := journal.value;
    updates := [];
    for s := 0 to |Statuses|
      invariant updates == Concat(seq(s, k requires 0 <= k < s => UpdatesFor(Statuses[k], matches(Statuses[k]), notes)))
    {
      ghost var before := updates;
      var status := Statuses[s];
      var ids := matches(status);
      for m := 0 to |ids|
        invariant updates == before + UpdatesFor(status, ids[..m], notes)
      {
        updates := updates + [Update(ids[m], status, notes(ids[m]))];
      }
      assert ids[..|ids|] == ids;
      ghost var parts := seq(s + 1, k requires 0 <= k < s + 1 => UpdatesFor(Statuses[k], matches(Statuses[k]), notes));
      assert parts[..s] == seq(s, k requires 0 <= k < s => UpdatesFor(Statuses[k], matches(Statuses[k]), notes));
    }
    ghost var all := seq(3, k requires 0 <= k < 3 => UpdatesFor(Statuses[k], matches(Statuses[k]), notes));
    assert all[..1][..0] == all[..0];
    assert all[..2][..1] == all[..1];
    assert all[..3][..2] == all[..2];
    assert Concat(all[..1]) == all[0];
    assert Concat(all[..2]) == all[0] + all[1];
    assert all[..3] == all;
  }

  /** Completed updates come first, then cancelled, then deferred; every
      update carries one of the three statuses. */
  lemma UpdatesOrdered(matches: string -> seq<string>, notes: string -> string)
    ensures var u := UpdatesFor(Statuses[0], matches(Statuses[0]), notes)
                     + UpdatesFor(Statuses[1], matches(Statuses[1]), notes)
                     + UpdatesFor(Statuses[2], matches(Statuses[2]), notes);
            (forall i, j :: 0 <= i < j < |u| ==> Rank(u[i].status) <= Rank(u[j].status))
            && (forall x :: x in u ==> x.status in Statuses)
  {
    var a := UpdatesFor(Statuses[0], matches(Statuses[0]), notes);
    var b := UpdatesFor(Statuses[1], matches(Statuses[1]), notes);
    var c := UpdatesFor(Statuses[2], matches(Statuses[2]), notes);
    var u := a + b + c;
    forall i | 0 <= i < |u| ensures Rank(u[i].status) == (if i < |a| then 0 else if i < |a| + |b| then 1 else 2) {
      if i < |a| {
        assert u[i] in a;
      } else if i < |a| + |b| {
        assert u[i] == b[i - |a|];
        assert u[i] in b;
      } else {
        assert u[i] == c[i - |a| - |b|];
        assert u[i] in c;
      }
    }
  }

  /** The AppleScript update_omnifocus_task runs for a status. */
  datatype Script = CompleteScript | CancelScript | DeferScript

  function ScriptFor(status: string): (r: Option<Script>)
    ensures r.None? <==> status !in Statuses
  {
    if status == "completed" then Some(CompleteScript)
    else if status == "cancelled" then Some(CancelScript)
    else if status == "deferred" then Some(DeferScript)
    else None
  }

  /** update_omnifocus_task: an unknown status returns False and runs
      nothing; otherwise the status's script runs and the result is whether
      it exited with 0 (`run`). */
  method UpdateOmniFocusTask(status: string, run: Script -> bool) returns (ok: bool, ran: Option<Script>)
    ensures status !in Statuses ==> !ok && ran.None?
    ensures status in Statuses ==> ran == ScriptFor(status) && ran.Some? && ok == run(ran.value)
  {
    var script := ScriptFor(status);
    if script.None? {
      return false, None;
    }
    ok := run(script.value);
    ran := script;
  }

  /** Every update the extraction produces passes the guard: the evening
      sync only fails on an update when its script fails. */
  lemma ExtractedUpdatesPassGuard(matches: string -> seq<string>, notes: string -> string)
    ensures var u := UpdatesFor(Statuses[0], matches(Statuses[0]), notes)
                     + UpdatesFor(Statuses[1], matches(Statuses[1]), notes)
                     + UpdatesFor(Statuses[2], matches(Statuses[2]), notes);
            forall x :: x in u ==> ScriptFor(x.status).Some?
  {
    UpdatesOrdered(matches, notes);
  }
}
