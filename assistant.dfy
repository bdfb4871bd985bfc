/**
 * The personal assistant's text-to-task rules, shared by its two copies
 * (`scripts/personal_assistant.py` and the top-level `personal_assistant.py`
 * repeat them line for line): the input is split into fragments at Chinese
 * and ASCII punctuation, every fragment holding a task word becomes a task,
 * and the task's priority, due offset, project and duration come from the
 * first keyword rule that fires. The plan text, the e-mail subject and body
 * and the OmniFocus URL commands are then built from the task list.
 *
 * The clock is a parameter: `dueLabel(d)` is the month-day label of today
 * plus d days, `timestamp` the formatted current time, `nowHour` its hour.
 */
module Assistant {
  import opened Common

  datatype PlanTask = PlanTask(name: string, priority: string, dueDays: int, project: string, estimatedTime: nat)

  /** The characters re.split(r'[，。；,;]') splits at. */
  const Delims: set<char> := {'，', '。', '；', ',', ';'}

  const TaskIndicators: seq<string> := ["要做", "需要", "完成", "准备", "处理", "写", "开会", "联系",
                                        "买", "约", "学习", "复习", "整理", "安排"]

  const HighPriorityWords: seq<string> := ["重要", "紧急", "急", "马上", "立即", "必须"]

  /** The time words, in the dictionary's (insertion) order, each with its day offset. */
  const TimePatterns: seq<(seq<string>, int)> := [(["今天"], 0), (["明天"], 1), (["后天"], 2),
                                                 (["这周"], 7), (["下周"], 14)]

  /** The project keyword lists, in the dictionary's order. */
  const ProjectKeywords: seq<(seq<string>, string)> := [
    (["项目", "会议", "报告", "代码", "开发", "测试"], "工作"),
    (["学习", "复习", "阅读", "研究", "课程"], "学习"),
    (["买", "购", "医院", "体检", "健身", "运动"], "生活"),
    (["联系", "电话", "邮件", "微信", "约"], "沟通")]

  /** The duration guesses used when the text states no duration. */
  const EffortWords: seq<(seq<string>, nat)> := [(["完成", "写", "准备"], 60), (["联系", "约", "买"], 20)]

  // ---------------------------------------------------------------------
  // First-match keyword rules

  /** The value of the first rule, in order, one of whose words occurs in
      the text, or the default when none does. */
  function FirstHit<V>(text: string, rules: seq<(seq<string>, V)>, default: V): (r: V)
    ensures (exists i :: 0 <= i < |rules| && ContainsAny(text, rules[i].0) && r == rules[i].1
                         && forall j :: 0 <= j < i ==> !ContainsAny(text, rules[j].0))
            || ((forall i :: 0 <= i < |rules| ==> !ContainsAny(text, rules[i].0)) && r == default)
  {
    if rules == [] then default
    else if ContainsAny(text, rules[0].0) then rules[0].1
    else
      var r := FirstHit(text, rules[1..], default);
      assert forall i :: 0 < i < |rules| ==> rules[i] == rules[1..][i - 1];
      r
  }

  /** _extract_priority: "high" exactly when an urgency word occurs. */
  function ExtractPriority(text: string): (p: string)
    ensures p == "high" <==> ContainsAny(text, HighPriorityWords)
    ensures p == "high" || p == "medium"
  {
    FirstHit(text, [(HighPriorityWords, "high")], "medium")
  }

  /** _extract_timeline: the offset of the first time word found, else 1. */
  function ExtractTimeline(text: string): (d: int)
    ensures d in {0, 1, 2, 7, 14}
  {
    FirstHit(text, TimePatterns, 1)
  }

  /** The time words are tried in order: 今天 wins over every later word,
      明天 over the ones after it, and a text with none of them is due in
      one day. */
  lemma TimelineOrder(text: string)
    ensures Contains(text, "今天") ==> ExtractTimeline(text) == 0
    ensures !Contains(text, "今天") && Contains(text, "明天") ==> ExtractTimeline(text) == 1
    ensures (forall i :: 0 <= i < |TimePatterns| ==> !Contains(text, TimePatterns[i].0[0])) ==> ExtractTimeline(text) == 1
  {
    forall i | 0 <= i < |TimePatterns|
      ensures ContainsAny(text, TimePatterns[i].0) <==> Contains(text, TimePatterns[i].0[0])
    {
      assert TimePatterns[i].0 == [TimePatterns[i].0[0]];
    }
    if Contains(text, "今天") {
      assert ContainsAny(text, TimePatterns[0].0);
    } else if Contains(text, "明天") {
      assert !ContainsAny(text, TimePatterns[0].0);
      assert ContainsAny(text, TimePatterns[1].0);
    }
  }

  /** _extract_project: the first project one of whose keywords occurs, else 其他. */
  function ExtractProject(text: string): (p: string)
    ensures p in {"工作", "学习", "生活", "沟通", "其他"}
    ensures p == "其他" <==> forall i :: 0 <= i < |ProjectKeywords| ==> !ContainsAny(text, ProjectKeywords[i].0)
  {
    FirstHit(text, ProjectKeywords, "其他")
  }

  // ---------------------------------------------------------------------
  // Duration: the leftmost match of (\d+)\s*(小时|分钟|h|min)

  datatype Unit = Hours | Minutes

  /** The end of the run of digits starting at i. */
  function DigitsEnd(s: string, i: nat): (j: nat)
    requires i <= |s|
    ensures i <= j <= |s| && (forall k :: i <= k < j ==> IsDigit(s[k])) && (j == |s| || !IsDigit(s[j]))
    decreases |s| - i
  {
    if i < |s| && IsDigit(s[i]) then DigitsEnd(s, i + 1) else i
  }

  /** The end of the run of whitespace starting at i. */
  function SpacesEnd(s: string, i: nat): (j: nat)
    requires i <= |s|
    ensures i <= j <= |s| && (j == |s| || !IsSpace(s[j]))
    decreases |s| - i
  {
    if i < |s| && IsSpace(s[i]) then SpacesEnd(s, i + 1) else i
  }

  /** The unit alternatives at position k, tried in the pattern's order. */
  function UnitAt(s: string, k: nat): Option<Unit>
    requires k <= |s|
  {
    if "小时" <= s[k..] then Some(Hours)
    else if "分钟" <= s[k..] then Some(Minutes)
    else if "h" <= s[k..] then Some(Hours)
    else if "min" <= s[k..] then Some(Minutes)
    else None
  }

  /** A match starting at i: the greedy digit run, the whitespace after it
      and a unit (giving back digits or whitespace cannot help, since no
      unit starts with a digit or a space). */
  function MatchAt(s: string, i: nat): Option<(nat, Unit)>
    requires i <= |s|
  {
    if i < |s| && IsDigit(s[i]) then
      var j := DigitsEnd(s, i);
      var k := SpacesEnd(s, j);
      assert AllDigits(s[i..j]);
      match UnitAt(s, k)
      case None => None
      case Some(u) => Some((ParseDigits(s[i..j]), u))
    else None
  }

  /** re.search: the match at the leftmost position that has one. */
  function SearchDuration(s: string, i: nat): Option<(nat, Unit)>
    requires i <= |s|
    decreases |s| - i
  {
    if i == |s| then None
    else match MatchAt(s, i)
      case Some(m) => Some(m)
      case None => SearchDuration(s, i + 1)
  }

  /** _extract_duration, in minutes. */
  function ExtractDuration(text: string): (m: nat)
    ensures SearchDuration(text, 0).None? ==>
              m == FirstHit(text, EffortWords, 30) && m in {20, 30, 60}
    ensures SearchDuration(text, 0).Some? ==>
              var (v, u) := SearchDuration(text, 0).value;
              m == (if u == Hours then v * 60 else v)
  {
    match SearchDuration(text, 0)
    case Some((v, Hours)) => v * 60
    case Some((v, Minutes)) => v
    case None => FirstHit(text, EffortWords, 30)
  }

  lemma {:induction false} DigitsEndAt(s: string, i: nat, j: nat)
    requires i <= j <= |s| && (forall k :: i <= k < j ==> IsDigit(s[k])) && (j == |s| || !IsDigit(s[j]))
    ensures DigitsEnd(s, i) == j
    decreases j - i
  {
    if i < j {
      DigitsEndAt(s, i + 1, j);
    }
  }

  lemma {:induction false} SearchSkipsDigitFree(s: string, a: nat, i: nat)
    requires i <= a <= |s|
    requires forall k :: 0 <= k < a ==> !IsDigit(s[k])
    ensures SearchDuration(s, i) == SearchDuration(s, a)
    decreases a - i
  {
    if i < a {
      SearchSkipsDigitFree(s, a, i + 1);
    }
  }

  /** A duration written as a number and a unit, after a digit-free prefix,
      decides the estimate: hours are converted to minutes. */
  lemma DurationOfStatedTime(prefix: string, n: nat, unit: string, rest: string)
    requires forall k :: 0 <= k < |prefix| ==> !IsDigit(prefix[k])
    requires unit in ["小时", "分钟", "h", "min"]
    ensures ExtractDuration(prefix + NatToString(n) + unit + rest)
            == if unit == "小时" || unit == "h" then n * 60 else n
  {
    var s := prefix + NatToString(n) + unit + rest;
    var digits := NatToString(n);
    var a, j := |prefix|, |prefix| + |digits|;
    assert s[a..j] == digits;
    assert s[j..] == unit + rest;
    var u := if unit == "小时" || unit == "h" then Hours else Minutes;
    UnitOfStated(s, j, unit, rest);
    MatchOfStated(s, a, j, n, u);
    assert forall k :: 0 <= k < a ==> s[k] == prefix[k];
    SearchSkipsDigitFree(s, a, 0);
  }

  /** A unit spelled at k is the unit read there. */
  lemma UnitOfStated(s: string, k: nat, unit: string, rest: string)
    requires k <= |s| && s[k..] == unit + rest
    requires unit in ["小时", "分钟", "h", "min"]
    ensures UnitAt(s, k) == if unit == "小时" || unit == "h" then Some(Hours) else Some(Minutes)
  {
    assert unit <= s[k..];
    assert s[k] == unit[0];
  }

  /** The decimal text of n followed by a unit is a match of n in that unit. */
  lemma MatchOfStated(s: string, a: nat, j: nat, n: nat, u: Unit)
    requires a <= j < |s| && s[a..j] == NatToString(n)
    requires UnitAt(s, j) == Some(u)
    ensures MatchAt(s, a) == Some((n, u))
  {
    var digits := NatToString(n);
    assert forall k :: a <= k < j ==> s[k] == digits[k - a];
    assert s[a] == digits[0];
    assert !IsDigit(s[j]) && !IsSpace(s[j]);
    DigitsEndAt(s, a, j);
    assert SpacesEnd(s, j) == j;
    ParseNatToString(n);
  }

  // ---------------------------------------------------------------------
  // Parsing

  predicate HasIndicator(sentence: string) {
    ContainsAny(sentence, TaskIndicators)
  }

  /** The task a fragment becomes. */
  function TaskOf(sentence: string): PlanTask {
    PlanTask(Strip(sentence), ExtractPriority(sentence), ExtractTimeline(sentence), ExtractProject(sentence),
             ExtractDuration(sentence))
  }

  function TasksOf(sentences: seq<string>): (ts: seq<PlanTask>)
    ensures |ts| == |sentences|
  {
    seq(|sentences|, i requires 0 <= i < |sentences| => TaskOf(sentences[i]))
  }

  /** The tasks parse_user_input finds: one per fragment holding a task
      word, in fragment order. */
  function ParsedTasks(input: string): (r: seq<PlanTask>)
    ensures |r| <= |SplitOnAny(input, Delims)|
  {
    TasksOf(Filter(SplitOnAny(input, Delims), HasIndicator))
  }

  /** parse_user_input: the loop over the fragments. */
  method ParseUserInput(input: string) returns (tasks: seq<PlanTask>)
    ensures tasks == ParsedTasks(input)
  {
    var sentences := SplitOnAny(input, Delims);
    tasks := [];
    for i := 0 to |sentences|
      invariant tasks == TasksOf(Filter(sentences[..i], HasIndicator))
    {
      FilterStep(sentences, HasIndicator, i);
      ghost var kept := Filter(sentences[..i], HasIndicator);
      if HasIndicator(sentences[i]) {
        TasksOfAppend(kept, sentences[i]);
        tasks := tasks + [TaskOf(sentences[i])];
      } else {
        assert kept + [] == kept;
      }
    }
    assert sentences[..|sentences|] == sentences;
  }

  lemma TasksOfAppend(ss: seq<string>, s: string)
    ensures TasksOf(ss + [s]) == TasksOf(ss) + [TaskOf(s)]
  {
    var l, r := TasksOf(ss + [s]), TasksOf(ss) + [TaskOf(s)];
    forall i | 0 <= i < |l| ensures l[i] == r[i] {
      if i < |ss| {
        assert (ss + [s])[i] == ss[i];
      }
    }
  }

  /** Every parsed task comes from a fragment holding a task word; its name
      is that fragment stripped, so it holds no separator and starts and
      ends with a non-space; there are at most as many tasks as fragments. */
  lemma ParsedTasksShape(input: string)
    ensures |ParsedTasks(input)| <= CountIn(input, Delims) + 1
    ensures forall t :: t in ParsedTasks(input) ==>
              (exists f :: f in SplitOnAny(input, Delims) && HasIndicator(f) && t == TaskOf(f))
              && (forall c :: c in t.name ==> c !in Delims)
              && (t.name == [] || (!IsSpace(t.name[0]) && !IsSpace(t.name[|t.name| - 1])))
              && (t.priority == "high" || t.priority == "medium")
  {
    var fragments := SplitOnAny(input, Delims);
    FragmentsHaveNoSeparator(input);
    var kept := Filter(fragments, HasIndicator);
    assert |ParsedTasks(input)| == |kept| <= |fragments|;
    forall t | t in ParsedTasks(input)
      ensures exists f :: f in fragments && HasIndicator(f) && t == TaskOf(f)
      ensures forall c :: c in t.name ==> c !in Delims
      ensures t.name == [] || (!IsSpace(t.name[0]) && !IsSpace(t.name[|t.name| - 1]))
      ensures t.priority == "high" || t.priority == "medium"
    {
      var f := TaskSource(kept, t);
      FilterMembership(fragments, HasIndicator, f);
      TaskOfShape(f);
    }
  }

  /** The fragments of the input: one more than its separators, none holding
      a separator. */
  lemma FragmentsHaveNoSeparator(input: string)
    ensures |SplitOnAny(input, Delims)| == CountIn(input, Delims) + 1
    ensures forall f :: f in SplitOnAny(input, Delims) ==> forall c :: c in f ==> c !in Delims
  {
    SplitPieces(input, Delims, "");
    var fragments := SplitOnAny(input, Delims);
    forall f | f in fragments ensures forall c :: c in f ==> c !in Delims {
      var j :| 0 <= j < |fragments| && fragments[j] == f;
    }
  }

  /** The fragment a task of TasksOf comes from. */
  lemma TaskSource(sentences: seq<string>, t: PlanTask) returns (f: string)
    requires t in TasksOf(sentences)
    ensures f in sentences && t == TaskOf(f)
  {
    var i :| 0 <= i < |sentences| && TasksOf(sentences)[i] == t;
    f := sentences[i];
  }

  /** The task of a separator-free fragment: its name holds no separator and
      is stripped, and its priority is high or medium. */
  lemma TaskOfShape(f: string)
    requires forall c :: c in f ==> c !in Delims
    ensures forall c :: c in TaskOf(f).name ==> c !in Delims
    ensures TaskOf(f).name == [] || (!IsSpace(TaskOf(f).name[0]) && !IsSpace(TaskOf(f).name[|TaskOf(f).name| - 1]))
    ensures TaskOf(f).priority == "high" || TaskOf(f).priority == "medium"
  {
    var t := TaskOf(f);
    assert t.name == Strip(f) && t.priority == ExtractPriority(f);
    StripSubset(f);
  }

  // ---------------------------------------------------------------------
  // Numbered task lists

  predicate IsHigh(t: PlanTask) {
    t.priority == "high"
  }

  predicate IsMedium(t: PlanTask) {
    t.priority == "medium"
  }

  /** The entries of ts numbered from `start`, each formatted by fmt. */
  function Numbered(ts: seq<PlanTask>, start: nat, fmt: (nat, PlanTask) -> string): string {
    if ts == [] then "" else Numbered(ts[..|ts| - 1], start, fmt) + fmt(start + |ts| - 1, ts[|ts| - 1])
  }

  /** Numbering two lists one after the other is numbering their concatenation. */
  lemma {:induction false} NumberedAppend(a: seq<PlanTask>, b: seq<PlanTask>, start: nat,
                                          fmt: (nat, PlanTask) -> string)
    ensures Numbered(a + b, start, fmt) == Numbered(a, start, fmt) + Numbered(b, start + |a|, fmt)
    decreases |b|
  {
    if b == [] {
      assert a + b == a;
    } else {
      assert (a + b)[..|a + b| - 1] == a + b[..|b| - 1];
      NumberedAppend(a, b[..|b| - 1], start, fmt);
    }
  }

  /** The entry of the number-th task sits right after the entries before it. */
  lemma {:induction false} NumberedEntry(ts: seq<PlanTask>, start: nat, fmt: (nat, PlanTask) -> string, i: nat)
    requires i < |ts|
    ensures Numbered(ts, start, fmt)
            == Numbered(ts[..i], start, fmt) + fmt(start + i, ts[i]) + Numbered(ts[i + 1..], start + i + 1, fmt)
  {
    var pre, mid, post := ts[..i], [ts[i]], ts[i + 1..];
    assert ts == pre + (mid + post);
    NumberedAppend(pre, mid + post, start, fmt);
    NumberedAppend(mid, post, start + i, fmt);
    NumberedSingle(ts[i], start + i, fmt);
    var x, y, z := Numbered(pre, start, fmt), fmt(start + i, ts[i]), Numbered(post, start + i + 1, fmt);
    assert Numbered(ts, start, fmt) == x + (y + z);
    assert x + (y + z) == x + y + z;
  }

  lemma NumberedSingle(t: PlanTask, start: nat, fmt: (nat, PlanTask) -> string)
    ensures Numbered([t], start, fmt) == fmt(start, t)
  {
    assert [t][..0] == [];
  }

  /** A section: its title and its tasks numbered from `start`, or nothing
      when it has no task. */
  function Section(title: string, ts: seq<PlanTask>, start: nat, fmt: (nat, PlanTask) -> string): string {
    if ts == [] then "" else title + Numbered(ts, start, fmt)
  }

  /** `if ts:` followed by the enumerate loop appending each entry. */
  method BuildSection(title: string, ts: seq<PlanTask>, start: nat, fmt: (nat, PlanTask) -> string)
    returns (text: string, next: nat)
    ensures text == Section(title, ts, start, fmt) && next == start + |ts|
  {
    if ts == [] {
      return "", start;
    }
    text, next := title, start;
    for i := 0 to |ts|
      invariant text == title + Numbered(ts[..i], start, fmt) && next == start + i
    {
      assert ts[..i + 1][..i] == ts[..i];
      text := text + fmt(next, ts[i]);
      next := next + 1;
    }
    assert ts[..|ts|] == ts;
  }

  function TotalMinutes(ts: seq<PlanTask>): nat {
    if ts == [] then 0 else TotalMinutes(ts[..|ts| - 1]) + ts[|ts| - 1].estimatedTime
  }

  /** sum(task['estimated_time'] for task in tasks). */
  method SumMinutes(tasks: seq<PlanTask>) returns (total: nat)
    ensures total == TotalMinutes(tasks)
  {
    total := 0;
    for i := 0 to |tasks|
      invariant total == TotalMinutes(tasks[..i])
    {
      assert tasks[..i + 1][..i] == tasks[..i];
      total := total + tasks[i].estimatedTime;
    }
    assert tasks[..|tasks|] == tasks;
  }

  // ---------------------------------------------------------------------
  // generate_task_plan

  datatype PlanResult = NoTasks(message: string) | Plan(text: string, tasks: seq<PlanTask>)

  function PlanItem(dueLabel: int -> string): (nat, PlanTask) -> string {
    (i: nat, t: PlanTask) =>
      "  " + NatToString(i) + ". " + t.name + " [" + t.project + "]\n"
      + "     ⏰ " + dueLabel(t.dueDays) + " | ⏱️ " + NatToString(t.estimatedTime) + "min\n\n"
  }

  function PlanHeader(n: nat): string {
    "📋 为你生成了 " + NatToString(n) + " 项任务:\n\n"
  }

  /** The plan's last line: the total as whole hours and remaining minutes. */
  function PlanFooter(total: nat): string {
    "⏱️ 预计总时间: " + NatToString(total / 60) + "h " + NatToString(total % 60) + "min\n"
  }

  /** The text generate_task_plan builds: the count, the high tasks and the
      medium tasks each numbered from 1, and the total. */
  function PlanText(tasks: seq<PlanTask>, dueLabel: int -> string): (r: string)
    ensures PlanHeader(|tasks|) <= r
    ensures var footer := PlanFooter(TotalMinutes(tasks));
            |footer| <= |r| && r[|r| - |footer|..] == footer
  {
    PlanHeader(|tasks|)
    + Section("🔥 高优先级任务:\n", Filter(tasks, IsHigh), 1, PlanItem(dueLabel))
    + Section("📋 常规任务:\n", Filter(tasks, IsMedium), 1, PlanItem(dueLabel))
    + PlanFooter(TotalMinutes(tasks))
  }

  /** generate_task_plan: a bare message for no tasks, otherwise the plan
      text together with the tasks. */
  method GenerateTaskPlan(tasks: seq<PlanTask>, dueLabel: int -> string) returns (r: PlanResult)
    ensures tasks == [] <==> r.NoTasks?
    ensures r.NoTasks? ==> r.message == "没有识别到具体任务。"
    ensures r.Plan? ==> r == Plan(PlanText(tasks, dueLabel), tasks)
  {
    if tasks == [] {
      return NoTasks("没有识别到具体任务。");
    }
    var high, _ := BuildSection("🔥 高优先级任务:\n", Filter(tasks, IsHigh), 1, PlanItem(dueLabel));
    var medium, _ := BuildSection("📋 常规任务:\n", Filter(tasks, IsMedium), 1, PlanItem(dueLabel));
    var total := SumMinutes(tasks);
    return Plan(PlanHeader(|tasks|) + high + medium + PlanFooter(total), tasks);
  }

  /** The plan ends with its footer, which shows the total split into whole
      hours h and minutes m < 60 with 60 * h + m the total. */
  lemma PlanEndsWithTotal(tasks: seq<PlanTask>, dueLabel: int -> string)
    ensures var t := TotalMinutes(tasks);
            var text := PlanText(tasks, dueLabel);
            |PlanFooter(t)| <= |text| && text[|text| - |PlanFooter(t)|..] == PlanFooter(t)
            && exists h: nat, m: nat :: h * 60 + m == t && m < 60
                 && PlanFooter(t) == "⏱️ 预计总时间: " + NatToString(h) + "h " + NatToString(m) + "min\n"
  {
    var t := TotalMinutes(tasks);
    var text := PlanText(tasks, dueLabel);
    var front := PlanHeader(|tasks|)
                 + Section("🔥 高优先级任务:\n", Filter(tasks, IsHigh), 1, PlanItem(dueLabel))
                 + Section("📋 常规任务:\n", Filter(tasks, IsMedium), 1, PlanItem(dueLabel));
    assert text == front + PlanFooter(t);
    assert text[|front|..] == PlanFooter(t);
    assert (t / 60) * 60 + t % 60 == t;
  }

  // ---------------------------------------------------------------------
  // The e-mail: subject and body

  predicate AllSameProject(tasks: seq<PlanTask>) {
    forall i :: 0 <= i < |tasks| ==> tasks[i].project == tasks[0].project
  }

  lemma SingletonSet(s: set<string>, x: string)
    requires x in s && |s| == 1
    ensures s == {x}
  {
    assert |s - {x}| == 0;
    assert s - {x} == {};
    assert forall y :: y in s ==> y in s - {x} || y == x;
  }

  /** _generate_subject with the default template: the task's name for one
      task; for any other count the same-project form when every task has
      the same project, the mixed form otherwise. */
  function GenerateSubject(tasks: seq<PlanTask>): (s: string)
    ensures |tasks| == 1 ==> s == tasks[0].name
    ensures |tasks| != 1 && tasks != [] && AllSameProject(tasks) ==>
              s == tasks[0].project + "任务 (" + NatToString(|tasks|) + "项)"
    ensures |tasks| != 1 && !(tasks != [] && AllSameProject(tasks)) ==>
              s == "今日计划 (" + NatToString(|tasks|) + "项任务)"
  {
    if |tasks| == 1 then tasks[0].name
    else
      var projects := set t | t in tasks :: t.project;
      assert tasks != [] && AllSameProject(tasks) ==> projects == {tasks[0].project};
      if |projects| == 1 then
        var p := tasks[0].project;
        assert p in projects;
        SingletonSet(projects, p);
        assert AllSameProject(tasks) by {
          forall i | 0 <= i < |tasks| ensures tasks[i].project == p {
            assert tasks[i].project in projects;
          }
        }
        p + "任务 (" + NatToString(|tasks|) + "项)"
      else "今日计划 (" + NatToString(|tasks|) + "项任务)"
  }

  /** The task entry of both e-mail bodies. */
  function BodyItem(n: nat, t: PlanTask): string {
    NatToString(n) + ". " + t.name + "\n" + "   项目：" + t.project + " | 预计：" + NatToString(t.estimatedTime)
    + "分钟\n\n"
  }

  function BodyFooter(total: nat, timestamp: string): string {
    "总预计时间：" + NatToString(total / 60) + "小时" + NatToString(total % 60) + "分钟\n生成时间：" + timestamp
  }

  /** An e-mail body: the header, the high tasks numbered from 1, the
      medium tasks numbered on from there, the total and the timestamp. */
  function BodyText(header: string, tasks: seq<PlanTask>, timestamp: string): (r: string)
    ensures header <= r
    ensures var footer := BodyFooter(TotalMinutes(tasks), timestamp);
            |footer| <= |r| && r[|r| - |footer|..] == footer
  {
    header
    + Section("🔥 高优先级任务：\n", Filter(tasks, IsHigh), 1, BodyItem)
    + Section("📋 常规任务：\n", Filter(tasks, IsMedium), |Filter(tasks, IsHigh)| + 1, BodyItem)
    + BodyFooter(TotalMinutes(tasks), timestamp)
  }

  /** The e-mail header of scripts/personal_assistant.py's default template. */
  const TemplateHeader: string := "任务清单：\n\n"

  /** The e-mail header of the top-level personal_assistant.py. */
  const EmailHeader: string := "今日任务清单（按优先级顺序执行）：\n\n"

  /** The two body loops sharing the running task number. */
  method BuildBody(header: string, tasks: seq<PlanTask>, timestamp: string) returns (body: string)
    ensures body == BodyText(header, tasks, timestamp)
  {
    var taskNumber := 1;
    var high, medium;
    high, taskNumber := BuildSection("🔥 高优先级任务：\n", Filter(tasks, IsHigh), taskNumber, BodyItem);
    medium, taskNumber := BuildSection("📋 常规任务：\n", Filter(tasks, IsMedium), taskNumber, BodyItem);
    var total := SumMinutes(tasks);
    body := header + high + medium + BodyFooter(total, timestamp);
  }

  /** The numbering runs on across the two sections: their entries are
      those of the high-then-medium list numbered 1, 2, ..., and when every
      task is high or medium that list is a reordering of all the tasks. */
  lemma BodyNumbersRunOn(tasks: seq<PlanTask>)
    ensures var high := Filter(tasks, IsHigh);
            var medium := Filter(tasks, IsMedium);
            Numbered(high, 1, BodyItem) + Numbered(medium, |high| + 1, BodyItem)
            == Numbered(high + medium, 1, BodyItem)
    ensures (forall t :: t in tasks ==> IsHigh(t) || IsMedium(t)) ==>
              multiset(Filter(tasks, IsHigh) + Filter(tasks, IsMedium)) == multiset(tasks)
  {
    var high := Filter(tasks, IsHigh);
    var medium := Filter(tasks, IsMedium);
    NumberedAppend(high, medium, 1, BodyItem);
    if forall t :: t in tasks ==> IsHigh(t) || IsMedium(t) {
      SameFilter(tasks, IsMedium, (t: PlanTask) => !IsHigh(t));
      FilterPartition(tasks, IsHigh, (t: PlanTask) => !IsHigh(t));
    }
  }

  lemma {:induction false} SameFilter(tasks: seq<PlanTask>, p: PlanTask -> bool, q: PlanTask -> bool)
    requires forall t :: t in tasks ==> p(t) == q(t)
    ensures Filter(tasks, p) == Filter(tasks, q)
  {
    if tasks != [] {
      SameFilter(tasks[..|tasks| - 1], p, q);
    }
  }

  /** Parsed tasks are all high or medium, so the body lists each of them. */
  lemma ParsedTasksAllListed(input: string)
    ensures var ts := ParsedTasks(input);
            multiset(Filter(ts, IsHigh) + Filter(ts, IsMedium)) == multiset(ts)
  {
    ParsedTasksShape(input);
    BodyNumbersRunOn(ParsedTasks(input));
  }

  /** The hour of datetime.now().replace(hour=now.hour + total // 60) in
      _generate_body, as written: there is none (the call raises) once the
      sum passes 23. */
  function SuggestedHourAsWritten(nowHour: nat, total: nat): (h: Option<nat>)
    ensures h.Some? <==> nowHour + total / 60 <= 23
  {
    if nowHour + total / 60 <= 23 then Some(nowHour + total / 60) else None
  }

  /** _generate_body as written: it fails whenever the suggested hour
      overflows, although the default template never shows that hour. */
  function GenerateBodyAsWritten(tasks: seq<PlanTask>, nowHour: nat, timestamp: string): (r: Option<string>)
    ensures r.Some? <==> nowHour + TotalMinutes(tasks) / 60 <= 23
    ensures r.Some? ==> r.value == BodyText(TemplateHeader, tasks, timestamp)
  {
    if SuggestedHourAsWritten(nowHour, TotalMinutes(tasks)).None? then None
    else Some(BodyText(TemplateHeader, tasks, timestamp))
  }

  lemma TenHourTask()
    ensures ExtractDuration("写报告10小时") == 600
  {
    DurationOfStatedTime("写报告", 10, "小时", "");
    assert "写报告10小时" == "写报告" + NatToString(10) + "小时" + "";
  }

  /** As written, a plan of ten hours or more fails from 14:00 on: one task
      "写报告10小时" at 15:00 gets no body. */
  lemma LongPlanFailsAsWritten(timestamp: string)
    ensures forall nowHour: nat, tasks: seq<PlanTask> ::
              nowHour <= 23 && nowHour + TotalMinutes(tasks) / 60 >= 24 ==>
              GenerateBodyAsWritten(tasks, nowHour, timestamp).None?
    ensures GenerateBodyAsWritten([TaskOf("写报告10小时")], 15, timestamp).None?
  {
    var t := TaskOf("写报告10小时");
    TenHourTask();
    assert TotalMinutes([t]) == t.estimatedTime by {
      assert [t][..0] == [];
    }
  }

  /** The suggested hour as evidently intended (now plus the total hours on
      a 24-hour clock): always a valid hour. */
  function SuggestedHour(nowHour: nat, total: nat): (h: nat)
    ensures h < 24
    ensures (nowHour + total / 60 - h) % 24 == 0
  {
    (nowHour + total / 60) % 24
  }

  /** _generate_body with the corrected hour: defined for every task list
      and every hour, with the running numbering of BodyText. */
  method GenerateBody(tasks: seq<PlanTask>, nowHour: nat, timestamp: string) returns (body: string, hour: nat)
    ensures body == BodyText(TemplateHeader, tasks, timestamp)
    ensures hour < 24 && hour == SuggestedHour(nowHour, TotalMinutes(tasks))
  {
    body := BuildBody(TemplateHeader, tasks, timestamp);
    var total := SumMinutes(tasks);
    hour := SuggestedHour(nowHour, total);
  }

  /** Where the corrected body and the as-written one both exist they agree. */
  lemma CorrectedBodyExtendsAsWritten(tasks: seq<PlanTask>, nowHour: nat, timestamp: string)
    ensures GenerateBodyAsWritten(tasks, nowHour, timestamp).Some? ==>
              GenerateBodyAsWritten(tasks, nowHour, timestamp).value == BodyText(TemplateHeader, tasks, timestamp)
              && SuggestedHourAsWritten(nowHour, TotalMinutes(tasks)).value
                 == SuggestedHour(nowHour, TotalMinutes(tasks))
  {
  }

  // ---------------------------------------------------------------------
  // The OmniFocus URL commands

  predicate QuoteSafe(c: char) {
    IsLetterAscii(c) || IsDigit(c) || c in "_.-~/%"
  }

  function HexDigit(d: nat): (c: char)
    requires d < 16
    ensures QuoteSafe(c)
  {
    if d < 10 then DigitChar(d) else ('A' as int + d - 10) as char
  }

  /** The UTF-8 bytes of a character. */
  function Utf8(c: char): (bs: seq<nat>)
    ensures 1 <= |bs| <= 4
  {
    var v := c as int;
    if v < 0x80 then [v]
    else if v < 0x800 then [0xC0 + v / 64, 0x80 + v % 64]
    else if v < 0x10000 then [0xE0 + v / 4096, 0x80 + (v / 64) % 64, 0x80 + v % 64]
    else [0xF0 + v / 262144, 0x80 + (v / 4096) % 64, 0x80 + (v / 64) % 64, 0x80 + v % 64]
  }

  function PercentBytes(bs: seq<nat>): (r: string)
    ensures |r| == 3 * |bs|
    ensures forall i :: 0 <= i < |r| ==> QuoteSafe(r[i])
  {
    if bs == [] then ""
    else ['%', HexDigit((bs[0] / 16) % 16), HexDigit(bs[0] % 16)] + PercentBytes(bs[1..])
  }

  predicate Unreserved(c: char) {
    IsLetterAscii(c) || IsDigit(c) || c in "_.-~/"
  }

  /** urllib.parse.quote with safe='/': unreserved ASCII and '/' are kept,
      every other character becomes its %-encoded UTF-8 bytes. */
  function Quote(s: string): (r: string)
    ensures forall i :: 0 <= i < |r| ==> QuoteSafe(r[i])
    ensures (forall i :: 0 <= i < |s| ==> Unreserved(s[i])) ==> r == s
  {
    if s == [] then ""
    else (if Unreserved(s[0]) then [s[0]] else PercentBytes(Utf8(s[0]))) + Quote(s[1..])
  }

  /** The URL of one task. */
  function TaskUrl(t: PlanTask): (r: string)
    ensures "omnifocus:///add?name=" <= r
  {
    "omnifocus:///add?name=" + Quote(t.name) + "&project=" + Quote(t.project)
    + "&note=" + Quote("预计时间: " + NatToString(t.estimatedTime) + "分钟")
  }

  function OpenCommand(t: PlanTask): (r: string)
    ensures "open '" <= r && r[|r| - 1] == '\''
  {
    "open '" + TaskUrl(t) + "'"
  }

  const UrlHeader: string := "🔗 执行以下命令创建任务:\n\n"

  /** _send_via_url_scheme: one command per task, in task order, joined by
      newlines. */
  method UrlScheme(tasks: seq<PlanTask>) returns (out: string, urls: seq<string>)
    ensures |urls| == |tasks| && forall i :: 0 <= i < |tasks| ==> urls[i] == OpenCommand(tasks[i])
    ensures out == UrlHeader + Join("\n", urls)
  {
    urls := [];
    for i := 0 to |tasks|
      invariant |urls| == i && forall k :: 0 <= k < i ==> urls[k] == OpenCommand(tasks[k])
    {
      var command := OpenCommand(tasks[i]);
      urls := urls + [command];
      assert urls[i] == command;
    }
    out := UrlHeader + Join("\n", urls);
  }

  /** No newline and no single quote. */
  predicate Plain(s: string) {
    forall i :: 0 <= i < |s| ==> s[i] != '\n' && s[i] != '\''
  }

  lemma PlainQuote(s: string)
    ensures Plain(Quote(s))
  {
    var q := Quote(s);
    forall i | 0 <= i < |q| ensures q[i] != '\n' && q[i] != '\'' {
      assert QuoteSafe(q[i]);
    }
  }

  /** The URL holds no newline and no single quote: the quoting encodes them. */
  lemma TaskUrlIsPlain(t: PlanTask)
    ensures Plain(TaskUrl(t))
  {
    var note := "预计时间: " + NatToString(t.estimatedTime) + "分钟";
    PlainQuote(t.name);
    PlainQuote(t.project);
    PlainQuote(note);
    UrlOfPlainParts("omnifocus:///add?name=", Quote(t.name), "&project=", Quote(t.project), "&note=", Quote(note));
  }

  /** Plain pieces make a plain URL. */
  lemma UrlOfPlainParts(a: string, qn: string, b: string, qp: string, c: string, qt: string)
    requires a == "omnifocus:///add?name=" && b == "&project=" && c == "&note="
    requires Plain(qn) && Plain(qp) && Plain(qt)
    ensures Plain(a + qn + b + qp + c + qt)
  {
    assert Plain(a) && Plain(b) && Plain(c);
    PlainConcat(a, qn);
    PlainConcat(a + qn, b);
    PlainConcat(a + qn + b, qp);
    PlainConcat(a + qn + b + qp, c);
    PlainConcat(a + qn + b + qp + c, qt);
  }

  lemma PlainConcat(x: string, y: string)
    requires Plain(x) && Plain(y)
    ensures Plain(x + y)
  {
    forall i | 0 <= i < |x + y| ensures (x + y)[i] != '\n' && (x + y)[i] != '\'' {
      if i >= |x| {
        assert (x + y)[i] == y[i - |x|];
      }
    }
  }

  /** Each command is one line opening one quoted URL: it has no newline and
      exactly two single quotes, the ones around the URL. */
  lemma OpenCommandShape(t: PlanTask)
    ensures '\n' !in OpenCommand(t)
    ensures CountIn(OpenCommand(t), {'\''}) == 2
    ensures "open '" <= OpenCommand(t)
  {
    TaskUrlIsPlain(t);
    QuotedPlainUrl(TaskUrl(t));
  }

  /** Quoting a plain URL gives one line with exactly two single quotes. */
  lemma QuotedPlainUrl(u: string)
    requires Plain(u)
    ensures '\n' !in "open '" + u + "'"
    ensures CountIn("open '" + u + "'", {'\''}) == 2
  {
    assert forall i :: 0 <= i < |u| ==> u[i] !in {'\''};
    CountInNone(u, {'\''});
    CountInAppend("open '", u, {'\''});
    CountInAppend("open '" + u, "'", {'\''});
    assert CountIn("open '", {'\''}) == 1;
    assert CountIn("'", {'\''}) == 1;
    var w := "open '" + u + "'";
    forall i | 0 <= i < |w| ensures w[i] != '\n' {
      if 6 <= i < 6 + |u| {
        assert w[i] == u[i - 6];
      }
    }
  }

  /** The command text read line by line is one `open '…'` command per
      task, in task order. */
  lemma CommandsAreLines(tasks: seq<PlanTask>, urls: seq<string>)
    requires |tasks| >= 1
    requires |urls| == |tasks| && forall i :: 0 <= i < |tasks| ==> urls[i] == OpenCommand(tasks[i])
    ensures Lines(Join("\n", urls)) == urls
    ensures forall i :: 0 <= i < |urls| ==> CountIn(urls[i], {'\''}) == 2 && "open '" <= urls[i]
  {
    forall k | 0 <= k < |urls| ensures '\n' !in urls[k] && CountIn(urls[k], {'\''}) == 2 && "open '" <= urls[k] {
      OpenCommandShape(tasks[k]);
    }
    JoinedLines(urls);
  }
}
