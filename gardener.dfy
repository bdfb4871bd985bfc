/**
 * The knowledge gardener: every Markdown note under knowledge/ is an item
 * resurfaced on a Fibonacci schedule. A sync promotes the items whose review
 * reminder disappeared from Todoist (it was completed), registers new notes
 * and forgets deleted ones, then posts reminders for at most three due items,
 * earliest first.
 *
 * Dates are day numbers (1970-01-01 is day 0), so the source's comparison of
 * YYYY-MM-DD strings is integer comparison. Todoist is abstract: the ids of
 * the live tasks are a set, and the result of each task creation is given by
 * a function of its position among the posts of one sync.
 */
module Gardener {
  import opened Common
  import Todoist

  /** The review gaps in days, indexed by stage. */
  const Intervals: seq<nat> := [1, 2, 3, 5, 8, 13, 21, 34, 55, 89, 144]

  /** At most this many reminders are posted per sync. */
  const MaxDailyReviews: nat := 3

  /** The default next review date, 1970-01-01. */
  const Epoch: int := 0

  /** The state of one note; a missing next_review is None. */
  datatype Item = Item(stage: nat, lastReview: Option<int>, nextReview: Option<int>)

  /** What reading one of the two JSON files gave. */
  datatype JsonFile<V> = Missing | NotJson | Unreadable | Parsed(m: map<string, V>)

  /** _load_json: a missing file or one that is not JSON reads as {}; any other
      read error is not caught (None). */
  function LoadJson<V>(f: JsonFile<V>): (r: Option<map<string, V>>)
    ensures r.None? <==> f.Unreadable?
    ensures r.Some? && r.value != map[] ==> f.Parsed? && r.value == f.m
    ensures f.Parsed? ==> r == Some(f.m)
    ensures f.Missing? || f.NotJson? ==> r == Some(map[])
  {
    match f
    case Missing => Some(map[])
    case NotJson => Some(map[])
    case Unreadable => None
    case Parsed(m) => Some(m)
  }

  // ---------------------------------------------------------------------
  // Promotion

  /** INTERVALS[min(stage, len(INTERVALS) - 1)]. */
  function IntervalFor(stage: nat): (days: nat)
    ensures days in Intervals
    ensures 1 <= days <= 144
    ensures stage >= |Intervals| - 1 ==> days == 144
  {
    Intervals[if stage < |Intervals| - 1 then stage else |Intervals| - 1]
  }

  /** Later stages never wait less. */
  lemma IntervalsGrow(a: nat, b: nat)
    requires a <= b
    ensures IntervalFor(a) <= IntervalFor(b)
  {
    var i := if a < |Intervals| - 1 then a else |Intervals| - 1;
    var j := if b < |Intervals| - 1 then b else |Intervals| - 1;
    assert forall x, y :: 0 <= x <= y < |Intervals| ==> Intervals[x] <= Intervals[y];
    assert i <= j;
  }

  function Lookup(state: map<string, Item>, path: string): Option<Item> {
    if path in state then Some(state[path]) else None
  }

  /** _promote_item on the item's prior state (None: the path had no entry
      and starts at stage 0): one stage up, reviewed today, next review after
      the interval of the new stage. */
  function Promote(prior: Option<Item>, today: int): (it: Item)
    ensures it.stage >= 1 && it.lastReview == Some(today)
    ensures it.nextReview.Some? && today < it.nextReview.value <= today + 144
  {
    var stage := if prior.Some? then prior.value.stage else 0;
    Item(stage + 1, Some(today), Some(today + IntervalFor(stage + 1)))
  }

  /** A first completion waits two days, every completion from stage 9 on
      waits 144, and promoting an item again never shortens its gap. */
  lemma PromoteGaps(prior: Option<Item>, today: int, later: int)
    ensures prior.None? ==> Promote(prior, today).nextReview == Some(today + 2)
    ensures prior.Some? && prior.value.stage >= 9 ==> Promote(prior, today).nextReview == Some(today + 144)
    ensures var once := Promote(prior, today);
            var twice := Promote(Some(once), later);
            twice.stage == once.stage + 1
            && twice.nextReview.value - later >= once.nextReview.value - today
  {
    var once := Promote(prior, today);
    IntervalsGrow(once.stage, once.stage + 1);
  }

  /** The day an item is due: its next_review, 1970-01-01 when missing. */
  function DueDay(it: Item): int {
    it.nextReview.GetOr(Epoch)
  }

  /** The paths whose reminder is gone from the live task ids. */
  function Completed(active: map<string, string>, live: set<string>): (done: set<string>)
    ensures done <= active.Keys
    ensures live == {} ==> done == active.Keys
  {
    set p | p in active && active[p] !in live
  }

  /** The state after promoting every path of done exactly once. */
  function PromoteAll(state: map<string, Item>, done: set<string>, today: int): (r: map<string, Item>)
    ensures r.Keys == state.Keys + done
  {
    map p | p in state.Keys + done :: if p in done then Promote(Lookup(state, p), today) else state[p]
  }

  lemma PromoteAllStep(state: map<string, Item>, done: set<string>, p: string, today: int)
    requires p !in done
    ensures var before := PromoteAll(state, done, today);
            PromoteAll(state, done + {p}, today) == before[p := Promote(Lookup(before, p), today)]
  {
    var before := PromoteAll(state, done, today);
    assert Lookup(before, p) == Lookup(state, p);
  }

  /** Every completed path, and only those, moves one stage up; the rest of
      the state is untouched. */
  lemma PromoteAllEffect(state: map<string, Item>, done: set<string>, today: int, p: string)
    requires p in state.Keys + done
    ensures var r := PromoteAll(state, done, today);
            (p in done ==> r[p].stage == Lookup(state, p).GetOr(Item(0, None, None)).stage + 1
                           && DueDay(r[p]) > today)
            && (p !in done ==> r[p] == state[p])
  {
  }

  // ---------------------------------------------------------------------
  // Library rescan

  /** A newly found note: stage 0, never reviewed, due today. */
  function NewItem(today: int): (r: Item)
    ensures r.stage == 0 && r.lastReview.None? && DueDay(r) == today
  {
    Item(0, None, Some(today))
  }

  /** The state after _scan_library: exactly the current files, each keeping
      its entry when it had one. */
  function Rescan(state: map<string, Item>, files: set<string>, today: int): (r: map<string, Item>)
    ensures r.Keys == files
  {
    map p | p in files :: if p in state then state[p] else NewItem(today)
  }

  /** Rescanning the same files a second time, on any day, changes nothing. */
  lemma RescanIdempotent(state: map<string, Item>, files: set<string>, today: int, later: int)
    ensures Rescan(Rescan(state, files, today), files, later) == Rescan(state, files, today)
  {
  }

  // ---------------------------------------------------------------------
  // Scheduling

  /** An item is a candidate when it has no live reminder and is due. */
  predicate IsCandidate(state: map<string, Item>, active: map<string, string>, today: int, p: string)
    ensures IsCandidate(state, active, today, p) ==> p in state && p !in active
    ensures p in state && state[p].nextReview.None? && p !in active && Epoch <= today ==>
              IsCandidate(state, active, today, p)
  {
    p !in active && p in state && DueDay(state[p]) <= today
  }

  /** The candidates in the iteration order of the state. */
  function Candidates(order: seq<string>, state: map<string, Item>, active: map<string, string>, today: int)
    : (c: seq<string>)
    ensures |c| <= |order|
    ensures forall p :: p in c <==> p in order && IsCandidate(state, active, today, p)
  {
    if order == [] then []
    else
      var init := Candidates(order[..|order| - 1], state, active, today);
      var last := order[|order| - 1];
      assert order == order[..|order| - 1] + [last];
      init + (if IsCandidate(state, active, today, last) then [last] else [])
  }

  lemma {:induction false} CandidatesDistinct(order: seq<string>, state: map<string, Item>,
                                              active: map<string, string>, today: int)
    requires Distinct(order)
    ensures Distinct(Candidates(order, state, active, today))
  {
    if order != [] {
      var init := order[..|order| - 1];
      CandidatesDistinct(init, state, active, today);
      var last := order[|order| - 1];
      assert last !in init;
    }
  }

  /** The due day of a path of the state (1970-01-01 for any other path). */
  function DueOf(state: map<string, Item>, p: string): int {
    if p in state then DueDay(state[p]) else Epoch
  }

  /** Stable insertion: x goes before the first element due no earlier. */
  function InsertByDue(x: string, s: seq<string>, state: map<string, Item>): (r: seq<string>)
    ensures |r| == |s| + 1
  {
    if s == [] then [x]
    else if DueOf(state, x) <= DueOf(state, s[0]) then [x] + s
    else [s[0]] + InsertByDue(x, s[1..], state)
  }

  /** candidates.sort(key=next_review), a stable sort. */
  function SortByDue(s: seq<string>, state: map<string, Item>): (r: seq<string>)
    ensures |r| == |s|
  {
    if s == [] then [] else InsertByDue(s[0], SortByDue(s[1..], state), state)
  }

  predicate SortedByDue(s: seq<string>, state: map<string, Item>) {
    forall i, j :: 0 <= i < j < |s| ==> DueOf(state, s[i]) <= DueOf(state, s[j])
  }

  /** The elements of s due on day k, in order. */
  function WithDue(s: seq<string>, state: map<string, Item>, k: int): seq<string> {
    if s == [] then []
    else (if DueOf(state, s[0]) == k then [s[0]] else []) + WithDue(s[1..], state, k)
  }

  lemma {:induction false} InsertPermutes(x: string, s: seq<string>, state: map<string, Item>)
    ensures multiset(InsertByDue(x, s, state)) == multiset(s) + multiset{x}
  {
    if s != [] && DueOf(state, x) > DueOf(state, s[0]) {
      InsertPermutes(x, s[1..], state);
      assert s == [s[0]] + s[1..];
    }
  }

  lemma {:induction false} InsertSorted(x: string, s: seq<string>, state: map<string, Item>)
    requires SortedByDue(s, state)
    ensures SortedByDue(InsertByDue(x, s, state), state)
  {
    if s != [] && DueOf(state, x) > DueOf(state, s[0]) {
      InsertSorted(x, s[1..], state);
      var rest := InsertByDue(x, s[1..], state);
      InsertPermutes(x, s[1..], state);
      var r := InsertByDue(x, s, state);
      assert r == [s[0]] + rest;
      forall j | 0 <= j < |rest| ensures DueOf(state, s[0]) <= DueOf(state, rest[j]) {
        assert rest[j] in multiset(rest);
        if rest[j] != x {
          assert rest[j] in s[1..];
        }
      }
    }
  }

  lemma {:induction false} InsertStable(x: string, s: seq<string>, state: map<string, Item>, k: int)
    ensures WithDue(InsertByDue(x, s, state), state, k)
            == (if DueOf(state, x) == k then [x] else []) + WithDue(s, state, k)
  {
    var r := InsertByDue(x, s, state);
    var xs := if DueOf(state, x) == k then [x] else [];
    if s == [] {
      assert r == [x] && r[1..] == [];
      assert WithDue(r, state, k) == xs + [];
    } else if DueOf(state, x) <= DueOf(state, s[0]) {
      assert r == [x] + s && r[0] == x && r[1..] == s;
      assert WithDue(r, state, k) == xs + WithDue(s, state, k);
    } else {
      var rest := InsertByDue(x, s[1..], state);
      assert r == [s[0]] + rest && r[0] == s[0] && r[1..] == rest;
      var hs := if DueOf(state, s[0]) == k then [s[0]] else [];
      InsertStable(x, s[1..], state, k);
      var w := WithDue(s[1..], state, k);
      assert WithDue(r, state, k) == hs + (xs + w);
      assert WithDue(s, state, k) == hs + w;
      if xs == [] {
        assert hs + (xs + w) == hs + w;
      } else {
        assert hs == [];
        assert hs + (xs + w) == xs + w;
      }
    }
  }

  /** The sort is sorted, a permutation, and stable: the items due on any one
      day keep their relative order. */
  lemma {:induction false} SortByDueCorrect(s: seq<string>, state: map<string, Item>, k: int)
    ensures SortedByDue(SortByDue(s, state), state)
    ensures multiset(SortByDue(s, state)) == multiset(s)
    ensures WithDue(SortByDue(s, state), state, k) == WithDue(s, state, k)
  {
    if s != [] {
      SortByDueCorrect(s[1..], state, k);
      InsertSorted(s[0], SortByDue(s[1..], state), state);
      InsertPermutes(s[0], SortByDue(s[1..], state), state);
      InsertStable(s[0], SortByDue(s[1..], state), state, k);
      assert s == [s[0]] + s[1..];
    }
  }

  /** The first n elements, candidates[:n]. */
  function Take(s: seq<string>, n: nat): (r: seq<string>)
    ensures |r| == if |s| <= n then |s| else n
    ensures r == s[..|r|]
  {
    if |s| <= n then s else s[..n]
  }

  /** The paths one sync posts reminders for. */
  function Chosen(order: seq<string>, state: map<string, Item>, active: map<string, string>, today: int)
    : seq<string>
  {
    Take(SortByDue(Candidates(order, state, active, today), state), MaxDailyReviews)
  }

  /** Three items are chosen, or every candidate when there are fewer; each
      is a candidate; and none is due later than a candidate left out. When
      the order enumerates the state's paths, the candidates are exactly the
      due paths without a live reminder. */
  lemma ChosenAreEarliest(order: seq<string>, state: map<string, Item>, active: map<string, string>, today: int)
    ensures var cands := Candidates(order, state, active, today);
            var chosen := Chosen(order, state, active, today);
            |chosen| == (if |cands| <= MaxDailyReviews then |cands| else MaxDailyReviews)
            && (forall p :: p in chosen ==> IsCandidate(state, active, today, p))
            && (forall p, q :: p in chosen && q in cands && q !in chosen ==> DueOf(state, p) <= DueOf(state, q))
            && ((forall p :: p in order <==> p in state) ==>
                  forall q :: q in cands <==> IsCandidate(state, active, today, q))
  {
    var cands := Candidates(order, state, active, today);
    var sorted := SortByDue(cands, state);
    SortByDueCorrect(cands, state, 0);
    var chosen := Chosen(order, state, active, today);
    forall p | p in chosen ensures IsCandidate(state, active, today, p) {
      assert p in multiset(sorted);
    }
    forall p, q | p in chosen && q in cands && q !in chosen
      ensures DueOf(state, p) <= DueOf(state, q)
    {
      var i :| 0 <= i < |chosen| && chosen[i] == p;
      assert q in multiset(sorted);
      var j :| 0 <= j < |sorted| && sorted[j] == q;
      assert j >= |chosen|;
    }
  }

  lemma ChosenDistinct(order: seq<string>, state: map<string, Item>, active: map<string, string>, today: int)
    requires Distinct(order)
    ensures Distinct(Chosen(order, state, active, today))
  {
    var cands := Candidates(order, state, active, today);
    CandidatesDistinct(order, state, active, today);
    SortByDueCorrect(cands, state, 0);
    var sorted := SortByDue(cands, state);
    forall x ensures multiset(sorted)[x] <= 1 {
      MultiplicityOfDistinct(cands, x);
    }
    DistinctOfMultiplicity(sorted);
  }

  lemma {:induction false} MultiplicityOfDistinct(s: seq<string>, x: string)
    requires Distinct(s)
    ensures multiset(s)[x] <= 1
  {
    if s != [] {
      MultiplicityOfDistinct(s[1..], x);
      assert s == [s[0]] + s[1..];
      if s[0] == x {
        assert x !in s[1..];
      }
    }
  }

  lemma {:induction false} DistinctOfMultiplicity(s: seq<string>)
    requires forall x :: multiset(s)[x] <= 1
    ensures Distinct(s)
  {
    if s != [] {
      assert s == [s[0]] + s[1..];
      forall x ensures multiset(s[1..])[x] <= 1 {
        assert multiset(s)[x] == multiset([s[0]])[x] + multiset(s[1..])[x];
      }
      DistinctOfMultiplicity(s[1..]);
      assert multiset(s)[s[0]] == 1 + multiset(s[1..])[s[0]];
      assert s[0] !in s[1..];
      forall i, j | 0 <= i < j < |s| ensures s[i] != s[j] {
        if i > 0 {
          assert s[i] == s[1..][i - 1] && s[j] == s[1..][j - 1];
        } else {
          assert s[j] in s[1..];
        }
      }
    }
  }

  /** A reminder is a create_task request. */
  type Reminder = Todoist.TaskRequest

  /** Path(p).name: the text after the last '/'. */
  function BaseName(path: string): (r: string)
    ensures |r| <= |path| && r == path[|path| - |r|..]
    ensures '/' !in r
  {
    if path == [] || path[|path| - 1] == '/' then []
    else BaseName(path[..|path| - 1]) + [path[|path| - 1]]
  }

  /** The position of the last '.', if any. */
  function LastDot(name: string): (i: Option<nat>)
    ensures i.Some? ==> i.value < |name| && name[i.value] == '.' && '.' !in name[i.value + 1..]
    ensures i.None? ==> '.' !in name
  {
    if name == [] then None
    else if name[|name| - 1] == '.' then Some(|name| - 1)
    else
      var j := LastDot(name[..|name| - 1]);
      assert name == name[..|name| - 1] + [name[|name| - 1]];
      j
  }

  /** Path.stem: the name without its last suffix; a leading or trailing dot
      is not a suffix. */
  function Stem(name: string): (r: string)
    ensures |r| <= |name| && r == name[..|r|]
  {
    match LastDot(name)
    case Some(i) => if 0 < i < |name| - 1 then name[..i] else name
    case None => name
  }

  /** The reminder title: the stem with '_' and '-' read as spaces, title-cased. */
  function NoteTitle(path: string): (r: string)
    ensures var st := Stem(BaseName(path));
            |r| == |st|
            && (forall i :: 0 <= i < |st| && (st[i] == '_' || st[i] == '-' || st[i] == ' ') ==> r[i] == ' ')
            && (forall i :: 0 <= i < |st| && IsLetterAscii(st[i]) ==>
                  r[i] == (if i > 0 && IsLetterAscii(st[i - 1]) then LowerChar(st[i]) else UpperChar(st[i])))
            && (forall i :: 0 <= i < |st| && !IsLetterAscii(st[i]) && st[i] != '_' && st[i] != '-' ==> r[i] == st[i])
  {
    SpacedTitle(Stem(BaseName(path)));
    Title(ReplaceChar(ReplaceChar(Stem(BaseName(path)), '_', ' '), '-', ' '))
  }

  /** Title-casing after the '_' and '-' replacements, character by character. */
  lemma SpacedTitle(st: string)
    ensures var r := Title(ReplaceChar(ReplaceChar(st, '_', ' '), '-', ' '));
            |r| == |st|
            && (forall i :: 0 <= i < |st| && (st[i] == '_' || st[i] == '-' || st[i] == ' ') ==> r[i] == ' ')
            && (forall i :: 0 <= i < |st| && IsLetterAscii(st[i]) ==>
                  r[i] == (if i > 0 && IsLetterAscii(st[i - 1]) then LowerChar(st[i]) else UpperChar(st[i])))
            && (forall i :: 0 <= i < |st| && !IsLetterAscii(st[i]) && st[i] != '_' && st[i] != '-' ==> r[i] == st[i])
  {
    var spaced := ReplaceChar(ReplaceChar(st, '_', ' '), '-', ' ');
    assert forall i :: 0 <= i < |st| ==> spaced[i] == if st[i] == '_' || st[i] == '-' then ' ' else st[i];
  }

  /** The preview lines among the first lines read: stripped, non-blank and
      not a heading. */
  function PreviewLines(lines: seq<string>): (r: seq<string>)
    ensures |r| <= |lines|
    ensures forall i :: 0 <= i < |r| ==> r[i] != [] && r[i][0] != '#'
  {
    if lines == [] then []
    else
      var line := Strip(lines[|lines| - 1]);
      PreviewLines(lines[..|lines| - 1]) + (if line != [] && line[0] != '#' then [line] else [])
  }

  /** _get_file_content_preview on the file's text (None: it cannot be read):
      the first three preview lines among the first ten lines, then "...". */
  function Preview(content: Option<string>): (r: string)
    ensures content.None? ==> r == "Unable to read file."
    ensures content.Some? ==>
              var kept := PreviewLines(Take(Lines(content.value), 10));
              (kept == [] ==> r == "No content preview.")
              && (kept != [] ==> r == Join("\n", Take(kept, 3)) + "...")
  {
    if content.None? then "Unable to read file."
    else
      var kept := PreviewLines(Take(Lines(content.value), 10));
      if kept == [] then "No content preview." else Join("\n", Take(kept, 3)) + "..."
  }

  /** The reminder posted for a path. */
  function ReminderFor(path: string, read: string -> Option<string>): (r: Reminder)
    ensures "🧠 Review: " <= r.content && r.content[|"🧠 Review: "|..] == NoteTitle(path)
    ensures r.project == Some("fitness") && r.priority == "high" && r.labels == ["review"]
    ensures Todoist.DueFor(r.dueDays) == Todoist.Word("today") && r.parentId.None?
  {
    Todoist.TaskRequest("🧠 Review: " + NoteTitle(path), Some("fitness"), "high", 0, ["review"],
                        Preview(read(path)) + "\n\nPath: `" + BaseName(path) + "`", None)
  }

  /** The reminders for a list of paths, in order. */
  function Reminders(paths: seq<string>, read: string -> Option<string>): (r: seq<Reminder>)
    ensures |r| == |paths|
  {
    if paths == [] then [] else Reminders(paths[..|paths| - 1], read) + [ReminderFor(paths[|paths| - 1], read)]
  }

  lemma RemindersStep(paths: seq<string>, k: nat, read: string -> Option<string>)
    requires k < |paths|
    ensures Reminders(paths[..k + 1], read) == Reminders(paths[..k], read) + [ReminderFor(paths[k], read)]
  {
    var a := paths[..k + 1];
    assert a[..|a| - 1] == paths[..k] && a[|a| - 1] == paths[k];
  }

  /** The active-map entries the posts add: the k-th post, when it returned a
      task, maps its path to the task id. */
  function Scheduled(paths: seq<string>, post: nat -> Option<string>): (m: map<string, string>)
    ensures m.Keys <= set p | p in paths
  {
    if paths == [] then map[]
    else
      var k := |paths| - 1;
      var before := Scheduled(paths[..k], post);
      if post(k).Some? then before[paths[k] := post(k).value] else before
  }

  lemma ScheduledStep(m: map<string, string>, paths: seq<string>, k: nat, post: nat -> Option<string>)
    requires k < |paths|
    ensures m + Scheduled(paths[..k + 1], post)
            == if post(k).Some? then (m + Scheduled(paths[..k], post))[paths[k] := post(k).value]
               else m + Scheduled(paths[..k], post)
  {
    assert paths[..k + 1][..k] == paths[..k];
  }

  /** A post that returned nothing leaves its path unscheduled; one that
      returned a task records its id. */
  lemma {:induction false} ScheduledEntries(paths: seq<string>, post: nat -> Option<string>, k: nat)
    requires Distinct(paths) && k < |paths|
    ensures paths[k] in Scheduled(paths, post) <==> post(k).Some?
    ensures post(k).Some? ==> Scheduled(paths, post)[paths[k]] == post(k).value
  {
    var n := |paths| - 1;
    if k < n {
      ScheduledEntries(paths[..n], post, k);
    } else {
      assert paths[k] !in paths[..n];
      if post(k).None? {
        assert paths[k] !in Scheduled(paths[..n], post);
      }
    }
  }

  // ---------------------------------------------------------------------
  // The sync as a whole

  /** The result of the schedule phase on a state and active map. */
  datatype Snapshot = Snapshot(state: map<string, Item>, active: map<string, string>)

  /** The state and active map after the completion check and the rescan. */
  function BeforeScheduling(state: map<string, Item>, active: map<string, string>, live: set<string>,
                            files: set<string>, today: int): (r: Snapshot)
    ensures r.state.Keys == files
  {
    var done := Completed(active, live);
    var promoted := PromoteAll(state, done, today);
    Snapshot(Rescan(promoted, files, today), (active - done) - (promoted.Keys - files))
  }

  /** An item whose reminder was completed in this sync is not posted again
      in the same sync: its next review is after today. */
  lemma PromotedNotRescheduled(state: map<string, Item>, active: map<string, string>, live: set<string>,
                               files: set<string>, today: int, order: seq<string>, p: string)
    requires p in Completed(active, live)
    ensures var mid := BeforeScheduling(state, active, live, files, today);
            p !in Chosen(order, mid.state, mid.active, today)
  {
    var mid := BeforeScheduling(state, active, live, files, today);
    var promoted := PromoteAll(state, Completed(active, live), today);
    assert !IsCandidate(mid.state, mid.active, today, p) by {
      if p in files {
        assert mid.state[p] == promoted[p];
      }
    }
    var cands := Candidates(order, mid.state, mid.active, today);
    SortByDueCorrect(cands, mid.state, 0);
    assert p !in multiset(SortByDue(cands, mid.state));
  }

  /** When the listing comes back empty (no API, or an error swallowed by the
      task manager), every active reminder counts as completed: the active
      map empties and every such item moves one stage up. */
  lemma EmptyListingPromotesAll(state: map<string, Item>, active: map<string, string>, today: int, p: string)
    requires p in active
    ensures active - Completed(active, {}) == map[]
    ensures PromoteAll(state, Completed(active, {}), today)[p].stage == Lookup(state, p).GetOr(Item(0, None, None)).stage + 1
  {
    PromoteAllEffect(state, Completed(active, {}), today, p);
  }

  // ---------------------------------------------------------------------
  // The sort key of the source

  /** The sort key as the source computes it, state[x]["next_review"]: None
      stands for the KeyError raised when the item has no next_review. */
  function SortKeyAsWritten(state: map<string, Item>, p: string): (k: Option<int>)
    requires p in state
    ensures k.Some? ==> k.value == DueOf(state, p)
  {
    state[p].nextReview
  }

  /** The source's scheduling raises when some candidate has no key. */
  predicate ScheduleRaisesAsWritten(order: seq<string>, state: map<string, Item>, active: map<string, string>,
                                    today: int)
    ensures ScheduleRaisesAsWritten(order, state, active, today) ==>
              exists p :: p in order && p in state && state[p].nextReview.None?
  {
    var c := Candidates(order, state, active, today);
    exists i :: 0 <= i < |c| && c[i] in state && SortKeyAsWritten(state, c[i]).None?
  }

  /** A note without next_review passes the candidate filter (which reads the
      missing date as 1970-01-01) and then makes the sort key raise, so the
      sync stops before saving. */
  lemma MissingNextReviewRaises()
    ensures ScheduleRaisesAsWritten(["notes/a.md"], map["notes/a.md" := Item(0, None, None)], map[], 20000)
  {
    var state := map["notes/a.md" := Item(0, None, None)];
    var c := Candidates(["notes/a.md"], state, map[], 20000);
    assert IsCandidate(state, map[], 20000, "notes/a.md");
    assert "notes/a.md" in c;
    assert c[0] == "notes/a.md";
  }

  /** When the sort does not raise, every candidate's key is its due day,
      so sorting by DueOf is sorting by the source's key. */
  lemma KeysAreDueDaysWithoutRaise(order: seq<string>, state: map<string, Item>, active: map<string, string>,
                                   today: int)
    requires !ScheduleRaisesAsWritten(order, state, active, today)
    ensures forall p :: p in Candidates(order, state, active, today) ==>
              p in state && SortKeyAsWritten(state, p) == Some(DueOf(state, p))
  {
    var c := Candidates(order, state, active, today);
    forall p | p in c ensures p in state && SortKeyAsWritten(state, p) == Some(DueOf(state, p)) {
      var i :| 0 <= i < |c| && c[i] == p;
    }
  }

  /** The key computation of candidates.sort: state[x]["next_review"] for
      each candidate in turn; None is the KeyError of the first candidate
      without one. */
  method SortKeys(candidates: seq<string>, state: map<string, Item>) returns (keys: Option<seq<int>>)
    requires forall p :: p in candidates ==> p in state
    ensures keys.None? <==> exists i :: 0 <= i < |candidates| && candidates[i] in state
                                        && SortKeyAsWritten(state, candidates[i]).None?
    ensures keys.Some? ==> |keys.value| == |candidates|
                           && forall i :: 0 <= i < |candidates| ==> keys.value[i] == DueOf(state, candidates[i])
  {
    var ks: seq<int> := [];
    for i := 0 to |candidates|
      invariant |ks| == i
      invariant forall j :: 0 <= j < i ==> (SortKeyAsWritten(state, candidates[j]).Some?
                                            && ks[j] == DueOf(state, candidates[j]))
    {
      var k := SortKeyAsWritten(state, candidates[i]);
      if k.None? {
        return None;
      }
      ks := ks + [k.value];
    }
    return Some(ks);
  }

  // ---------------------------------------------------------------------
  // The gardener

  class KnowledgeGardener {
    var state: map<string, Item>
    var activeMap: map<string, string>

    /** The gardener on the two loaded JSON maps. */
    constructor (loadedState: map<string, Item>, loadedActive: map<string, string>)
      ensures state == loadedState && activeMap == loadedActive
    {
      state := loadedState;
      activeMap := loadedActive;
    }

    /** _promote_item. */
    method PromoteItem(path: string, today: int)
      modifies this`state
      ensures state == old(state)[path := Promote(Lookup(old(state), path), today)]
    {
      var prior := Lookup(state, path);
      state := state[path := Promote(prior, today)];
    }

    /** _check_completions against the ids of the live tasks. The listing is
        only consulted (`listed`) when some reminder is active. */
    method CheckCompletions(live: set<string>, today: int) returns (listed: bool)
      modifies this
      ensures listed <==> old(activeMap) != map[]
      ensures state == PromoteAll(old(state), Completed(old(activeMap), live), today)
      ensures activeMap == old(activeMap) - Completed(old(activeMap), live)
    {
      if activeMap == map[] {
        assert PromoteAll(state, {}, today) == state;
        return false;
      }
      var completed := PromoteCompleted(live, today);
      Forget(completed);
      return true;
    }

    /** The first loop of _check_completions: promote every active path whose
        task is not live, listing them. */
    method PromoteCompleted(live: set<string>, today: int) returns (completed: seq<string>)
      modifies this`state
      ensures forall p :: p in completed <==> p in Completed(activeMap, live)
      ensures state == PromoteAll(old(state), Completed(activeMap, live), today)
    {
      ghost var done: set<string> := {};
      completed := [];
      var pending := activeMap.Keys;
      while pending != {}
        invariant pending <= activeMap.Keys
        invariant forall p :: p in completed <==> p in done
        invariant done !! pending && done + pending <= activeMap.Keys
        invariant forall p :: p in activeMap && p !in pending ==> (p in done <==> activeMap[p] !in live)
        invariant state == PromoteAll(old(state), done, today)
        decreases pending
      {
        var p :| p in pending;
        if activeMap[p] !in live {
          PromoteAllStep(old(state), done, p, today);
          PromoteItem(p, today);
          completed := completed + [p];
          done := done + {p};
        }
        pending := pending - {p};
      }
      assert done == Completed(activeMap, live);
    }

    /** The second loop of _check_completions: delete the listed paths from
        the active map. */
    method Forget(completed: seq<string>)
      modifies this`activeMap
      ensures activeMap == old(activeMap) - (set p | p in completed)
    {
      ghost var removed: set<string> := {};
      for i := 0 to |completed|
        invariant removed == set j | 0 <= j < i :: completed[j]
        invariant activeMap == old(activeMap) - removed
      {
        activeMap := activeMap - {completed[i]};
        removed := removed + {completed[i]};
      }
      assert removed == set p | p in completed by {
        forall p | p in completed ensures p in removed {
          var j :| 0 <= j < |completed| && completed[j] == p;
        }
      }
    }

    /** _scan_library over the current note paths: register new ones, then
        forget the ones whose file is gone, in both maps. */
    method ScanLibrary(files: set<string>, today: int)
      modifies this
      ensures state == Rescan(old(state), files, today)
      ensures activeMap == old(activeMap) - (old(state).Keys - files)
    {
      RegisterNew(files, today);
      DropMissing(files);
      assert state == Rescan(old(state), files, today);
    }

    /** The first loop of _scan_library: a new entry for every unknown file. */
    method RegisterNew(files: set<string>, today: int)
      modifies this`state
      ensures state.Keys == old(state).Keys + files
      ensures forall p :: p in state ==> state[p] == (if p in old(state) then old(state)[p] else NewItem(today))
    {
      var toAdd := files;
      while toAdd != {}
        invariant toAdd <= files
        invariant state.Keys == old(state).Keys + (files - toAdd)
        invariant forall p :: p in state ==> state[p] == (if p in old(state) then old(state)[p] else NewItem(today))
        decreases toAdd
      {
        var f :| f in toAdd;
        if f !in state {
          state := state[f := NewItem(today)];
        }
        toAdd := toAdd - {f};
      }
    }

    /** The second loop of _scan_library: delete every entry whose file is
        gone, from the state and from the active map. */
    method DropMissing(files: set<string>)
      modifies this
      ensures state == map p | p in old(state) && p in files :: old(state)[p]
      ensures activeMap == old(activeMap) - (old(state).Keys - files)
    {
      var keys := state.Keys;
      ghost var dropped: set<string> := {};
      while keys != {}
        invariant keys <= old(state).Keys && dropped == (old(state).Keys - keys) - files
        invariant state == map p | p in old(state) && p !in dropped :: old(state)[p]
        invariant activeMap == old(activeMap) - dropped
        decreases keys
      {
        var f :| f in keys;
        if f !in files {
          state := map p | p in state && p != f :: state[p];
          if f in activeMap {
            activeMap := map p | p in activeMap && p != f :: activeMap[p];
          } else {
            assert activeMap - {f} == activeMap;
          }
          dropped := dropped + {f};
        }
        keys := keys - {f};
      }
    }

    /** _schedule_reviews: collect the candidates in the state's iteration
        order (`order`, each path once), compute their sort keys, which
        raises KeyError (`raised`) when one has no next_review, sort them by
        due day, post reminders for the first three and record each task the
        sink returned. */
    method ScheduleReviews(today: int, order: seq<string>, read: string -> Option<string>,
                           post: nat -> Option<string>)
      returns (raised: bool, sent: seq<Reminder>)
      requires Distinct(order) && forall p :: p in order <==> p in state
      modifies this`activeMap
      ensures raised == ScheduleRaisesAsWritten(order, state, old(activeMap), today)
      ensures raised ==> sent == [] && activeMap == old(activeMap)
      ensures !raised ==> var chosen := Chosen(order, state, old(activeMap), today);
                          sent == Reminders(chosen, read) && activeMap == old(activeMap) + Scheduled(chosen, post)
    {
      var candidates := CollectCandidates(today, order);
      var keys := SortKeys(candidates, state);
      if keys.None? {
        return true, [];
      }
      var toSchedule := Take(SortByDue(candidates, state), MaxDailyReviews);
      sent := PostReminders(toSchedule, read, post);
      raised := false;
    }

    /** The candidate loop of _schedule_reviews. */
    method CollectCandidates(today: int, order: seq<string>) returns (candidates: seq<string>)
      ensures candidates == Candidates(order, state, activeMap, today)
    {
      candidates := [];
      for i := 0 to |order|
        invariant candidates == Candidates(order[..i], state, activeMap, today)
      {
        assert order[..i + 1][..i] == order[..i];
        if IsCandidate(state, activeMap, today, order[i]) {
          candidates := candidates + [order[i]];
        }
      }
      assert order[..|order|] == order;
    }

    /** The posting loop of _schedule_reviews. */
    method PostReminders(toSchedule: seq<string>, read: string -> Option<string>, post: nat -> Option<string>)
      returns (sent: seq<Reminder>)
      modifies this`activeMap
      ensures sent == Reminders(toSchedule, read)
      ensures activeMap == old(activeMap) + Scheduled(toSchedule, post)
    {
      sent := [];
      for k := 0 to |toSchedule|
        invariant sent == Reminders(toSchedule[..k], read)
        invariant activeMap == old(activeMap) + Scheduled(toSchedule[..k], post)
      {
        RemindersStep(toSchedule, k, read);
        ScheduledStep(old(activeMap), toSchedule, k, post);
        var f := toSchedule[k];
        sent := sent + [ReminderFor(f, read)];
        var task := post(k);
        if task.Some? {
          activeMap := activeMap[f := task.value];
        }
      }
      assert toSchedule[..|toSchedule|] == toSchedule;
    }

    /** sync: completions, rescan, scheduling, then the two maps are saved
        (`saved`); a KeyError of the scheduling ends the sync before saving.
        `order` is the iteration order of the state after the rescan, whose
        paths are the current files. */
    method Sync(live: set<string>, files: set<string>, today: int, order: seq<string>,
                read: string -> Option<string>, post: nat -> Option<string>)
      returns (listed: bool, sent: seq<Reminder>, saved: Option<Snapshot>)
      requires Distinct(order) && forall p :: p in order <==> p in files
      modifies this
      ensures listed <==> old(activeMap) != map[]
      ensures var mid := BeforeScheduling(old(state), old(activeMap), live, files, today);
              var chosen := Chosen(order, mid.state, mid.active, today);
              state == mid.state
              && (ScheduleRaisesAsWritten(order, mid.state, mid.active, today) ==>
                    sent == [] && activeMap == mid.active && saved.None?)
              && (!ScheduleRaisesAsWritten(order, mid.state, mid.active, today) ==>
                    sent == Reminders(chosen, read) && activeMap == mid.active + Scheduled(chosen, post)
                    && saved == Some(Snapshot(state, activeMap)))
    {
      listed := CheckCompletions(live, today);
      ScanLibrary(files, today);
      var raised;
      raised, sent := ScheduleReviews(today, order, read, post);
      saved := if raised then None else Some(Snapshot(state, activeMap));
    }
  }
}
