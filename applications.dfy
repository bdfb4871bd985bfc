/**
 * The job-application tracker: a list of application records updated in
 * place (new records, status changes, interviews), filtered queries, and a
 * summary with per-status counts, the number of open applications and two
 * rates. The metadata written on every save repeats the total and the open
 * count.
 *
 * Clock readings (the ISO timestamp and the dates derived from it) and the
 * generated id are parameters. Rates are exact reals.
 */
module Applications {
  import opened Common

  /** One interview of an application. */
  datatype Interview = Interview(date: string, kind: string, notes: string, addedAt: string)

  /** An application record. The pass-through fields without logic (resume
      version, cover letter, job description, salary range, contacts, tags)
      are not part of this model. */
  datatype Application = Application(
    id: string, company: string, position: string, applicationDate: string,
    status: string, priority: string, source: string,
    deadline: string, expectedResponse: string, interviews: seq<Interview>,
    notes: string, feedback: string, nextActions: string,
    createdAt: string, updatedAt: string)

  /** The optional keyword arguments of add_application. */
  datatype NewApplication = NewApplication(
    applicationDate: Option<string>, status: Option<string>, priority: Option<string>,
    source: Option<string>, deadline: Option<string>, expectedResponse: Option<string>,
    notes: Option<string>, nextActions: Option<string>)

  /** The metadata of the tracker file; the open count and the update time
      are absent until the first save. */
  datatype Metadata = Metadata(totalApplications: nat, activeApplications: Option<nat>, lastUpdated: Option<string>)

  // ---------------------------------------------------------------------
  // Statuses

  /** Closed applications: rejected, withdrawn or accepted. */
  predicate IsActive(a: Application)
    ensures ReachedInterview(a) && a.status != "accepted" ==> IsActive(a)
    ensures !IsSubmitted(a) ==> IsActive(a)
  {
    a.status !in ["rejected", "withdrawn", "accepted"]
  }

  predicate IsSubmitted(a: Application) {
    a.status != "draft"
  }

  predicate HasResponse(a: Application) {
    a.status !in ["submitted"]
  }

  predicate ReachedInterview(a: Application) {
    a.status in ["interview_scheduled", "interview_completed", "offer_received", "accepted"]
  }

  /** The number of open applications. */
  function ActiveCount(apps: seq<Application>): (n: nat)
    ensures n <= |apps|
  {
    |Filter(apps, IsActive)|
  }

  /** The metadata save_data writes. */
  function Saved(apps: seq<Application>, now: string): (m: Metadata)
    ensures m.totalApplications == |apps|
    ensures m.activeApplications.Some? && m.activeApplications.value <= m.totalApplications
  {
    Metadata(|apps|, Some(ActiveCount(apps)), Some(now))
  }

  // ---------------------------------------------------------------------
  // Records

  /** The record add_application creates: status draft, priority medium,
      source company_website, no interviews and no feedback unless given. */
  function NewRecord(id: string, company: string, position: string, args: NewApplication,
                     now: string, today: string, inTwoWeeks: string): (a: Application)
    ensures a.id == id && a.company == company && a.position == position
    ensures a.interviews == [] && a.feedback == ""
    ensures args.status.None? ==> a.status == "draft"
    ensures args.priority.None? ==> a.priority == "medium"
    ensures args.source.None? ==> a.source == "company_website"
    ensures args.applicationDate.None? ==> a.applicationDate == today
    ensures args.expectedResponse.None? ==> a.expectedResponse == inTwoWeeks
    ensures args.nextActions.None? ==> a.nextActions == "Wait for response"
    ensures a.createdAt == now && a.updatedAt == now
  {
    Application(id, company, position, args.applicationDate.GetOr(today),
                args.status.GetOr("draft"), args.priority.GetOr("medium"), args.source.GetOr("company_website"),
                args.deadline.GetOr(""), args.expectedResponse.GetOr(inTwoWeeks), [],
                args.notes.GetOr(""), "", args.nextActions.GetOr("Wait for response"), now, now)
  }

  /** The index of the first record with the id, if any. */
  function FindId(apps: seq<Application>, id: string): (k: Option<nat>)
    ensures k.Some? ==> k.value < |apps| && apps[k.value].id == id
    ensures k.Some? ==> forall j :: 0 <= j < k.value ==> apps[j].id != id
    ensures k.None? ==> forall j :: 0 <= j < |apps| ==> apps[j].id != id
  {
    if apps == [] then None
    else if apps[0].id == id then Some(0)
    else match FindId(apps[1..], id)
      case None => None
      case Some(j) => Some(j + 1)
  }

  /** The line update_status appends to the notes, with the line break the
      text evidently means. */
  function StatusNote(date: string, oldStatus: string, newStatus: string, notes: string): (r: string)
    ensures |r| > 0 && r[0] == '\n'
    ensures |notes| <= |r| && r[|r| - |notes|..] == notes
  {
    "\n[" + date + "] Status: " + oldStatus + " → " + newStatus + ". " + notes
  }

  /** The same note as the source writes it: its f-string has the escaped
      backslash `\\n`, which puts a backslash and an 'n' in the text instead
      of a line break. */
  function StatusNoteAsWritten(date: string, oldStatus: string, newStatus: string, notes: string): (r: string)
    ensures |r| > 1 && r[0] == '\\' && r[1] == 'n'
    ensures |notes| <= |r| && r[|r| - |notes|..] == notes
  {
    "\\n[" + date + "] Status: " + oldStatus + " → " + newStatus + ". " + notes
  }

  predicate OneLine(s: string) {
    '\n' !in s
  }

  /** With the line break, the status note is a new line of the notes, and
      the earlier lines are kept as they were. */
  lemma StatusNoteIsNewLine(before: string, date: string, oldStatus: string, newStatus: string, notes: string)
    ensures Lines(before + StatusNote(date, oldStatus, newStatus, notes))
            == Lines(before) + Lines("[" + date + "] Status: " + oldStatus + " → " + newStatus + ". " + notes)
  {
    var rest := "[" + date + "] Status: " + oldStatus + " → " + newStatus + ". " + notes;
    assert before + StatusNote(date, oldStatus, newStatus, notes) == before + "\n" + rest;
    LinesAppend(before, rest);
  }

  /** As written, the note adds no line: on one-line inputs the notes keep
      their number of lines, where the intended note adds one. */
  lemma StatusNoteAsWrittenAddsNoLine(before: string, date: string, oldStatus: string, newStatus: string,
                                      notes: string)
    requires OneLine(before) && OneLine(date) && OneLine(oldStatus) && OneLine(newStatus) && OneLine(notes)
    ensures |Lines(before + StatusNoteAsWritten(date, oldStatus, newStatus, notes))| == 1
    ensures |Lines(before + StatusNote(date, oldStatus, newStatus, notes))| == 2
  {
    var written := before + StatusNoteAsWritten(date, oldStatus, newStatus, notes);
    var rest := "[" + date + "] Status: " + oldStatus + " → " + newStatus + ". " + notes;
    assert OneLine(rest);
    assert OneLine(written) by {
      assert written == before + "\\n" + rest;
    }
    CountInNone(written, {'\n'});
    LineCount(written);
    StatusNoteIsNewLine(before, date, oldStatus, newStatus, notes);
    CountInNone(before, {'\n'});
    LineCount(before);
    CountInNone(rest, {'\n'});
    LineCount(rest);
  }

  /** A record after update_status: the new status, the update time, and,
      when notes were given, the status note as the source writes it (with
      a backslash and an 'n' where a line break was meant) after the old
      notes; every other field is kept. */
  function WithStatus(a: Application, newStatus: string, notes: string, now: string, today: string)
    : (r: Application)
    ensures r.status == newStatus && r.updatedAt == now
    ensures notes == "" ==> r.notes == a.notes
    ensures notes != "" ==> a.notes <= r.notes
                            && r.notes[|a.notes|..] == StatusNoteAsWritten(today, a.status, newStatus, notes)
    ensures r.(status := a.status, updatedAt := a.updatedAt, notes := a.notes) == a
  {
    a.(status := newStatus, updatedAt := now,
       notes := if notes != "" then a.notes + StatusNoteAsWritten(today, a.status, newStatus, notes) else a.notes)
  }

  /** As written, a status update leaves one-line notes on one line. */
  lemma StatusUpdateKeepsOneLine(a: Application, newStatus: string, notes: string, now: string, today: string)
    requires OneLine(a.notes) && OneLine(today) && OneLine(a.status) && OneLine(newStatus) && OneLine(notes)
    ensures OneLine(WithStatus(a, newStatus, notes, now, today).notes)
  {
  }

  /** A record after add_interview: the interview appended and the status
      interview_scheduled, stamped with the update time; every other field
      is kept. */
  function WithInterview(a: Application, iv: Interview, now: string): (r: Application)
    ensures r.interviews == a.interviews + [iv] && r.status == "interview_scheduled"
    ensures r.updatedAt == now
    ensures r.(interviews := a.interviews, status := a.status, updatedAt := a.updatedAt) == a
  {
    a.(interviews := a.interviews + [iv], status := "interview_scheduled", updatedAt := now)
  }

  // ---------------------------------------------------------------------
  // Queries

  predicate CompanyMatches(a: Application, company: string) {
    Contains(Lower(a.company), Lower(company))
  }

  /** get_applications: the records with the status (when one is given) and
      whose company contains the given text ignoring case (when given). */
  function GetApplications(apps: seq<Application>, status: Option<string>, company: Option<string>)
    : (r: seq<Application>)
    ensures |r| <= |apps|
    ensures !Truthy(status) && !Truthy(company) ==> r == apps
  {
    var byStatus := if Truthy(status) then Filter(apps, (a: Application) => a.status == status.value) else apps;
    if Truthy(company) then Filter(byStatus, (a: Application) => CompanyMatches(a, company.value)) else byStatus
  }

  predicate Selected(a: Application, status: Option<string>, company: Option<string>) {
    (Truthy(status) ==> a.status == status.value) && (Truthy(company) ==> CompanyMatches(a, company.value))
  }

  /** The query keeps exactly the matching records, in their stored order. */
  lemma GetApplicationsIsFilter(apps: seq<Application>, status: Option<string>, company: Option<string>)
    ensures GetApplications(apps, status, company) == Filter(apps, a => Selected(a, status, company))
  {
    var sel := (a: Application) => Selected(a, status, company);
    if Truthy(status) && Truthy(company) {
      FilterFilter(apps, (a: Application) => a.status == status.value, (a: Application) => CompanyMatches(a, company.value), sel);
    } else if Truthy(status) {
      FilterSame(apps, (a: Application) => a.status == status.value, sel);
    } else if Truthy(company) {
      FilterSame(apps, (a: Application) => CompanyMatches(a, company.value), sel);
    } else {
      FilterAll(apps, sel);
    }
  }

  // ---------------------------------------------------------------------
  // Summary

  function StatusOf(a: Application): string {
    a.status
  }

  /** The status breakdown counts every record once: its counts add up to
      the number of applications. */
  lemma BreakdownSumsToTotal(apps: seq<Application>, ks: seq<string>)
    requires Distinct(ks) && (set k | k in ks) == Tally(apps, StatusOf).Keys
    ensures SumOver(Tally(apps, StatusOf), ks) == |apps|
  {
    TallySumsToLength(apps, StatusOf, ks);
  }

  /** _calculate_response_rate: the share, in percent, of submitted records
      that got past "submitted"; 0 with nothing submitted. */
  function ResponseRate(apps: seq<Application>): (rate: real)
    ensures 0.0 <= rate <= 100.0
    ensures Filter(apps, IsSubmitted) == [] ==> rate == 0.0
  {
    var submitted := Filter(apps, IsSubmitted);
    if submitted == [] then 0.0
    else
      var k := |Filter(submitted, HasResponse)|;
      PercentBounds(k as real, |submitted| as real);
      (k as real) / (|submitted| as real) * 100.0
  }

  /** _calculate_interview_rate: the share, in percent, of submitted records
      that reached an interview or later. */
  function InterviewRate(apps: seq<Application>): (rate: real)
    ensures 0.0 <= rate <= 100.0
  {
    var submitted := Filter(apps, IsSubmitted);
    if submitted == [] then 0.0
    else
      var k := |Filter(submitted, ReachedInterview)|;
      PercentBounds(k as real, |submitted| as real);
      (k as real) / (|submitted| as real) * 100.0
  }

  /** A share of a non-empty whole, in percent, lies between 0 and 100. */
  lemma PercentBounds(k: real, n: real)
    requires 0.0 <= k <= n && n > 0.0
    ensures 0.0 <= k / n * 100.0 <= 100.0
  {
    var q := k / n;
    assert q * n == k;
    assert q <= 1.0;
  }

  /** Every application that reached an interview has had a response, so the
      interview rate never exceeds the response rate. */
  lemma InterviewRateAtMostResponseRate(apps: seq<Application>)
    ensures InterviewRate(apps) <= ResponseRate(apps)
  {
    var submitted := Filter(apps, IsSubmitted);
    if submitted != [] {
      FilterMonotone(submitted, ReachedInterview, HasResponse);
      var i, r, n := |Filter(submitted, ReachedInterview)| as real, |Filter(submitted, HasResponse)| as real,
                     |submitted| as real;
      DivMonotone(i, r, n);
    }
  }

  lemma DivMonotone(i: real, r: real, n: real)
    requires 0.0 <= i <= r && n > 0.0
    ensures i / n * 100.0 <= r / n * 100.0
  {
    assert r / n - i / n == (r - i) / n;
  }

  /** get_summary. */
  datatype Summary = Summary(totalApplications: nat, statusBreakdown: map<string, nat>,
                             responseRate: real, interviewRate: real, activeApplications: nat)

  // ---------------------------------------------------------------------
  // The tracker

  class ApplicationTracker {
    var applications: seq<Application>
    var metadata: Metadata

    /** load_data: the stored data, or an empty tracker when the file does
        not exist. */
    constructor (stored: Option<(seq<Application>, Metadata)>)
      ensures stored.Some? ==> applications == stored.value.0 && metadata == stored.value.1
      ensures stored.None? ==> applications == [] && metadata == Metadata(0, None, None)
    {
      if stored.Some? {
        applications, metadata := stored.value.0, stored.value.1;
      } else {
        applications, metadata := [], Metadata(0, None, None);
      }
    }

    /** save_data's metadata update (writing the file is not modelled). */
    method SaveData(now: string)
      modifies this`metadata
      ensures metadata == Saved(applications, now)
    {
      var active := CountActive(applications);
      metadata := Metadata(|applications|, Some(active), Some(now));
    }

    /** add_application: append one new record and save; `appId` is the first
        eight characters of a fresh uuid. */
    method AddApplication(appId: string, company: string, position: string, args: NewApplication,
                          now: string, today: string, inTwoWeeks: string)
      returns (id: string)
      modifies this
      ensures id == appId
      ensures applications == old(applications) + [NewRecord(appId, company, position, args, now, today, inTwoWeeks)]
      ensures metadata == Saved(applications, now)
    {
      applications := applications + [NewRecord(appId, company, position, args, now, today, inTwoWeeks)];
      SaveData(now);
      return appId;
    }

    /** update_status: change the first record with the id and save; False
        and no change when no record has it. */
    method UpdateStatus(appId: string, newStatus: string, notes: string, now: string, today: string)
      returns (found: bool)
      modifies this
      ensures found <==> FindId(old(applications), appId).Some?
      ensures !found ==> applications == old(applications) && metadata == old(metadata)
      ensures found ==> var k := FindId(old(applications), appId).value;
                        applications == old(applications)[k := WithStatus(old(applications)[k], newStatus, notes, now, today)]
                        && metadata == Saved(applications, now)
    {
      for i := 0 to |applications|
        invariant forall j :: 0 <= j < i ==> applications[j].id != appId
      {
        if applications[i].id == appId {
          applications := applications[i := WithStatus(applications[i], newStatus, notes, now, today)];
          SaveData(now);
          return true;
        }
      }
      return false;
    }

    /** add_interview: append the interview to the first record with the id,
        mark it interview_scheduled and save; False and no change when no
        record has it. */
    method AddInterview(appId: string, date: string, kind: string, notes: string, now: string)
      returns (found: bool)
      modifies this
      ensures found <==> FindId(old(applications), appId).Some?
      ensures !found ==> applications == old(applications) && metadata == old(metadata)
      ensures found ==> var k := FindId(old(applications), appId).value;
                        applications == old(applications)[k := WithInterview(old(applications)[k],
                                                                             Interview(date, kind, notes, now), now)]
                        && metadata == Saved(applications, now)
    {
      for i := 0 to |applications|
        invariant forall j :: 0 <= j < i ==> applications[j].id != appId
      {
        if applications[i].id == appId {
          applications := applications[i := WithInterview(applications[i], Interview(date, kind, notes, now), now)];
          SaveData(now);
          return true;
        }
      }
      return false;
    }

    /** get_summary: the status breakdown is counted in a loop. */
    method GetSummary() returns (summary: Summary)
      ensures summary == Summary(|applications|, Tally(applications, StatusOf), ResponseRate(applications),
                                 InterviewRate(applications), ActiveCount(applications))
    {
      var counts: map<string, nat> := map[];
      for i := 0 to |applications|
        invariant counts == Tally(applications[..i], StatusOf)
      {
        assert applications[..i + 1][..i] == applications[..i];
        var s := applications[i].status;
        counts := counts[s := (if s in counts then counts[s] else 0) + 1];
      }
      assert applications[..|applications|] == applications;
      var active := CountActive(applications);
      summary := Summary(|applications|, counts, ResponseRate(applications), InterviewRate(applications), active);
    }
  }

  /** len([app for app in apps if status not closed]). */
  method CountActive(apps: seq<Application>) returns (n: nat)
    ensures n == ActiveCount(apps)
  {
    n := 0;
    for i := 0 to |apps|
      invariant n == |Filter(apps[..i], IsActive)|
    {
      assert apps[..i + 1][..i] == apps[..i];
      if IsActive(apps[i]) {
        n := n + 1;
      }
    }
    assert apps[..|apps|] == apps;
  }
}
