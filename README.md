# LifeOS decision logic in Dafny

LifeOS is a set of personal-productivity scripts. They keep spaced-repetition
flashcards, a "Knowledge Gardener" that posts note reviews to Todoist, job
application and job posting stores, a natural-language task assistant, and
syncs between Eudic, Notion, Anki, OmniFocus and Logseq. This project models the
decision logic of those scripts. Every remote service, file, clock, hash and
random source is a parameter or an abstract result. The project proves what
the scripts promise about that logic.

One module per script, plus shared modules:

| module | file | models |
|---|---|---|
| `Common` | common.dfy | the Python string and list built-ins the scripts lean on (`strip`, `split`, `join`, `replace`, `str(n)`, zero padding, filtering) |
| `Retry` | retry.dfy | the attempt loop shared by the two retry helpers |
| `Flashcards` | flashcards.py | SM-2, the progress map, the Q/A scan, due cards, the review session |
| `Gardener` | knowledge_gardener.py | the item state and active-reminder maps and the four sync phases |
| `Todoist` | todoist_manager.py | task parameters, batches, paginators, listing |
| `Applications` | application_tracker.py | the application store |
| `Jobs` | job_scraper.py | the deduplicating job store and its analysis |
| `Assistant` | both personal_assistant.py copies | sentence parsing, the plan, subject, body and URL-scheme texts |
| `Eudic` | sync_eudic_notion.py | the 502 retry, paging, filtering and the sync counters |
| `NotionPages` | notion_pages.dfy | the Notion page, property and block values both Anki converters read |
| `Anki` | sync_notion_anki.py and notion-kit/anki_sync.py | both converters; a `Copy` value selects which one |
| `NotionWrap` | notion-kit/notion_wrap.py | rate-limit retry, property building and extraction, page content |
| `LifeOsSync` | lifeos_sync.py | Logseq task lines, time blocks, update ordering, the status guard |
| `LogseqTracker` | logseq_tracker.py | journal names, activity insertion, the weekly window and trend |

Dates are day numbers throughout. The scripts compare `YYYY-MM-DD` strings, which
order like the days they name. Objects whose fields the scripts update in place
are classes: `Flashcards.CardManager`, `Gardener.KnowledgeGardener`,
`Applications.ApplicationTracker`, `Jobs.JobScraper`,
`Eudic.EudicSyncManager`, `Anki.AnkiSyncManager` and `LogseqTracker.Journal`.
Each method states the object's whole new state in terms of a specification
function, and lemmas state the properties of those functions.

## Model

| member | source | states |
|---|---|---|
| Flashcards.Trunc | scripts/flashcards.py:58 | Python `int()` on a float truncates toward zero: the result is within one of x, on the side of zero |
| Flashcards.Calculate | scripts/flashcards.py:42-70 | a pass (quality ≥ 3) gives interval 1 after 0 repetitions, 6 after 1, and otherwise the truncated old interval × ease factor, with one more repetition; a fail resets repetitions to 0 and interval to 1; the new ease factor is EF + (0.1 − (5−q)(0.08 + (5−q)·0.02)), raised to 1.3 when lower |
| Flashcards.ProductAtLeast | scripts/flashcards.py:58 | an interval of at least 1 times an ease factor of at least 1.3 is at least 1.3 and not smaller than the interval |
| Flashcards.GradeKeepsSchedulable | scripts/flashcards.py:52-68 | any grade applied to a state the program writes gives such a state again: ease factor ≥ 1.3 and interval ≥ 1 |
| Flashcards.PassNeverShrinks | scripts/flashcards.py:57-58 | from the third pass on, a passing grade never shortens the interval |
| Flashcards.ReplayFromNewCard | scripts/flashcards.py:52-68 | along any grading sequence the state stays schedulable, and after at least one grade the interval is ≥ 1 |
| Flashcards.GoodThreeTimes | scripts/flashcards.py:52-68 | three "good" grades (quality 4) from a new card give intervals 1, 6 and 15 and an unchanged ease factor of 2.5 |
| Flashcards.LoadProgress | scripts/flashcards.py:79-86 | a missing or unparsable progress file reads as the empty map; a parsed one gives its entries |
| Flashcards.Graded | scripts/flashcards.py:173-196 | the entry `_update_card` writes: the SM-2 update of the stored state, or of (0, 2.5, 0) for an unknown id, with next review = today + interval and last review = today |
| Flashcards.GradedNotDueToday | scripts/flashcards.py:190-193 | a freshly graded card is never due again on the same day |
| Flashcards.ContextOf | scripts/flashcards.py:104 | the context has the stem's length, and every `_` of the stem becomes a space |
| Flashcards.SpaceEnd | scripts/flashcards.py:97 | the end of the whitespace run that `\s*` consumes |
| Flashcards.LineEnd | scripts/flashcards.py:97 | the end of the line that `(.*?)` followed by MULTILINE `$` stops at |
| Flashcards.FindMark | scripts/flashcards.py:97 | the first `\nA:` from a position, and none earlier; None iff there is none |
| Flashcards.MarkFor | scripts/flashcards.py:97 | the `\nA:` that the lazy question group stops at: the first one after the blanks, or the one that directly follows `Q:` when `\s*` backtracks |
| Flashcards.MatchAt | scripts/flashcards.py:97 | a match starts with `Q:`, ends after its start, and its answer holds no line break |
| Flashcards.MatchShape | scripts/flashcards.py:97 | the question of a match never contains `\nA:`, because the lazy group stops at the first one; the answer never starts with a blank |
| Flashcards.Matches | scripts/flashcards.py:97-99 | every answer that `re.findall` returns lies on one line |
| Flashcards.CardsOf | scripts/flashcards.py:99-113 | one card per match, in match order, with stripped question and answer, the file path and the context of the stem |
| Flashcards.ScannedCardsAreClean | scripts/flashcards.py:92-115 | every scanned card has a stripped question and a stripped, single-line answer |
| Flashcards.StripNoNewline | scripts/flashcards.py:109-110 | stripping a line-break-free text keeps it line-break free |
| Flashcards.StripIdempotent | scripts/flashcards.py:109-110 | stripping a stripped text changes nothing |
| Flashcards.DueCards | scripts/flashcards.py:117-133 | a card is listed iff its id is not in progress or its next review is on or before today |
| Flashcards.IsDue | scripts/flashcards.py:121-129 | a card without progress is due; a card whose next review is after today is not |
| Flashcards.QualityOfChoice | scripts/flashcards.py:155-168 | exactly the inputs 1, 2, 3 and 4 are accepted, and they map to qualities 0, 3, 4 and 5 |
| Flashcards.Rating | scripts/flashcards.py:157-166 | a rating is read iff the stripped answer is one of "1" to "4"; it maps onto the SM-2 qualities 0, 3, 4, 5 |
| Flashcards.Ratings | scripts/flashcards.py:150-168 | one reading per typed line |
| Flashcards.FirstRating | scripts/flashcards.py:150-170 | the re-prompt loop: the first accepted input from the current position, with every earlier input rejected; None when the input ends (the session is interrupted) |
| Flashcards.SessionFrom | scripts/flashcards.py:143-170 | a session grades at most the due cards that remain; before each card's rating prompt the "Press [Enter]" prompt consumes one line, and the session ends when the input ends at either prompt |
| Flashcards.SessionGradesPrefix | scripts/flashcards.py:143-170 | the k-th grade of a session is for the k-th due card, and every grade is a quality on the 0/3/4/5 scale |
| Flashcards.RevealLineIsSkipped | scripts/flashcards.py:150-165 | with one due card and the lines "4" then "1", the "4" goes to the reveal prompt and the card is graded 0 |
| Flashcards.RatingsOnScale | scripts/flashcards.py:158-168 | every accepted typed line has a quality in {0, 3, 4, 5} |
| Flashcards.UngradedUnchanged | scripts/flashcards.py:173-196 | grading touches only the graded ids: the entry of any other id is kept, and so is its absence |
| Flashcards.GradedCardsLeaveToday | scripts/flashcards.py:135-196 | after a session, every stored state is still schedulable and no graded card is due today |
| Flashcards.CardManager.constructor | scripts/flashcards.py:73-86 | the manager starts with the loaded progress and no cards |
| Flashcards.CardManager.ScanCards | scripts/flashcards.py:92-115 | the card list becomes exactly the cards of all readable files, in file order |
| Flashcards.CardManager.GetDueCards | scripts/flashcards.py:117-133 | the result is a permutation (the shuffle) of exactly the due cards |
| Flashcards.CardManager.UpdateCard | scripts/flashcards.py:173-196 | only the graded id's entry changes, and it becomes the graded entry |
| Flashcards.CardManager.ReviewLoop | scripts/flashcards.py:135-171 | scans, takes a permutation of the due cards and leaves progress updated by exactly the session's grades, in order, one line going to each reveal prompt |
| Flashcards.CardManager.GradeSession | scripts/flashcards.py:143-170 | per card, one line is read at the reveal prompt and the next accepted rating grades the card; progress is the session's grades applied in order |
| Flashcards.ReadRating | scripts/flashcards.py:150-168 | the prompt loop returns the first accepted rating and where reading stopped |
| Gardener.LoadJson | scripts/knowledge_gardener.py:54-61 | a missing or non-JSON file reads as {}; a parsed file reads as its map; an unreadable file gives None (the error propagates) |
| Gardener.IntervalFor | scripts/knowledge_gardener.py:148 | the gap of a stage is one of INTERVALS, between 1 and 144 days, and 144 from stage 10 on |
| Gardener.IntervalsGrow | scripts/knowledge_gardener.py:41 | a higher stage never has a shorter gap |
| Gardener.Promote | scripts/knowledge_gardener.py:132-150 | promotion moves up at least one stage, records today as the last review, and schedules a review 1 to 144 days ahead |
| Gardener.PromoteGaps | scripts/knowledge_gardener.py:134-150 | an item with no entry starts at stage 0 and waits 2 days; from stage 9 on it waits 144 days; promoting again adds one stage and never shortens the gap |
| Gardener.Completed | scripts/knowledge_gardener.py:112-126 | the completed paths are active paths whose task id is not live; with no live ids, every active path counts |
| Gardener.PromoteAll | scripts/knowledge_gardener.py:118-126 | after the completion loop the state holds the old paths and every completed path |
| Gardener.PromoteAllStep | scripts/knowledge_gardener.py:118-123 | promoting one more path updates just that path's entry |
| Gardener.PromoteAllEffect | scripts/knowledge_gardener.py:118-126 | each completed path is promoted exactly once, to its old stage + 1 with a review after today; other entries are untouched |
| Gardener.Rescan | scripts/knowledge_gardener.py:154-177 | after the rescan the state's paths are exactly the current files |
| Gardener.NewItem | scripts/knowledge_gardener.py:163-168 | a new file starts at stage 0, never reviewed, due today |
| Gardener.RescanIdempotent | scripts/knowledge_gardener.py:154-177 | rescanning the same files again, on any day, changes nothing |
| Gardener.Candidates | scripts/knowledge_gardener.py:184-192 | a path is a candidate iff it has no live reminder and its next review (1970-01-01 when missing) is on or before today |
| Gardener.IsCandidate | scripts/knowledge_gardener.py:185-192 | a candidate is tracked and has no active reminder; a tracked item without a review date and no active reminder is one (the default date is 1970-01-01) |
| Gardener.CandidatesDistinct | scripts/knowledge_gardener.py:185-192 | candidates appear at most once |
| Gardener.InsertByDue | scripts/knowledge_gardener.py:195 | one step of the stable sort adds exactly one element |
| Gardener.SortByDue | scripts/knowledge_gardener.py:195 | sorting keeps the length |
| Gardener.InsertPermutes | scripts/knowledge_gardener.py:195 | an insertion adds exactly the inserted path |
| Gardener.InsertSorted | scripts/knowledge_gardener.py:195 | inserting into a sorted list keeps it sorted by next review |
| Gardener.InsertStable | scripts/knowledge_gardener.py:195 | insertion keeps the relative order of paths due on the same day |
| Gardener.SortByDueCorrect | scripts/knowledge_gardener.py:195 | the sort is ordered by next review, is a permutation, and is stable |
| Gardener.Take | scripts/knowledge_gardener.py:198 | `candidates[:n]`: the first min(n, len) paths |
| Gardener.ChosenAreEarliest | scripts/knowledge_gardener.py:184-198 | min(3, number of candidates) paths are chosen, all candidates, none due later than a candidate left out; when the order enumerates the state, the candidates are exactly its due paths without a live reminder |
| Gardener.ChosenDistinct | scripts/knowledge_gardener.py:184-198 | no path is scheduled twice in one sync |
| Gardener.BaseName | scripts/knowledge_gardener.py:218 | `Path.name`: the part after the last `/` |
| Gardener.LastDot | scripts/knowledge_gardener.py:212 | the position of the suffix dot, if any |
| Gardener.Stem | scripts/knowledge_gardener.py:212 | `Path.stem` is a prefix of the name |
| Gardener.NoteTitle | scripts/knowledge_gardener.py:212 | the title has the stem's length; `_`, `-` and spaces become spaces; a letter is upper-case after a non-letter (or at the start) and lower-case after a letter; other characters are kept |
| Gardener.SpacedTitle | scripts/knowledge_gardener.py:212 | title-casing the stem after the two replacements, character by character, as stated for NoteTitle |
| Gardener.PreviewLines | scripts/knowledge_gardener.py:72-77 | only non-empty stripped lines that do not start with `#` are kept |
| Gardener.Preview | scripts/knowledge_gardener.py:67-80 | an unreadable file gives "Unable to read file."; with no kept line, "No content preview."; otherwise the first 3 kept lines of the first 10, joined, and "..." |
| Gardener.ReminderFor | scripts/knowledge_gardener.py:206-222 | the reminder is "🧠 Review: " and the note title, in project fitness, priority high, labelled "review", due today, with no parent |
| Gardener.Reminders | scripts/knowledge_gardener.py:206-222 | one reminder per chosen path |
| Gardener.RemindersStep | scripts/knowledge_gardener.py:206-222 | the reminders are posted in order, one per chosen path |
| Gardener.Scheduled | scripts/knowledge_gardener.py:224-225 | only chosen paths get an active-map entry |
| Gardener.ScheduledStep | scripts/knowledge_gardener.py:216-225 | each posting adds an entry exactly when `create_task` returned a task |
| Gardener.ScheduledEntries | scripts/knowledge_gardener.py:216-225 | a chosen path is in the active map iff its posting returned a task, and it maps to that task's id |
| Gardener.BeforeScheduling | scripts/knowledge_gardener.py:86-94 | after the completion check and the rescan, the state's paths are the current files |
| Gardener.PromotedNotRescheduled | scripts/knowledge_gardener.py:86-102 | an item completed in this sync is not scheduled again in the same sync |
| Gardener.EmptyListingPromotesAll | scripts/knowledge_gardener.py:112-130 | an empty task listing promotes every active item one stage and empties the active map |
| Gardener.SortKeyAsWritten | scripts/knowledge_gardener.py:195 | the sort key `state[x]["next_review"]` agrees with the due day when present, and is missing (KeyError) otherwise |
| Gardener.ScheduleRaisesAsWritten | scripts/knowledge_gardener.py:195 | the sort raises only when some candidate in the order has no next_review |
| Gardener.MissingNextReviewRaises | scripts/knowledge_gardener.py:190-195 | a note without next_review passes the candidate filter and then makes the sort raise |
| Gardener.KeysAreDueDaysWithoutRaise | scripts/knowledge_gardener.py:190-195 | when the sort does not raise, every candidate's key is its due day, so the sort by due day is the source's sort |
| Gardener.SortKeys | scripts/knowledge_gardener.py:195 | the key computation fails (KeyError) iff some candidate has no next_review; otherwise the keys are the candidates' due days, in order |
| Gardener.KnowledgeGardener.constructor | scripts/knowledge_gardener.py:45-52 | the gardener starts from the two loaded maps |
| Gardener.KnowledgeGardener.PromoteItem | scripts/knowledge_gardener.py:132-152 | only the promoted path's entry changes |
| Gardener.KnowledgeGardener.CheckCompletions | scripts/knowledge_gardener.py:104-130 | with an empty active map the listing is skipped; otherwise completed paths are promoted and removed from the active map, and live ones are untouched |
| Gardener.KnowledgeGardener.PromoteCompleted | scripts/knowledge_gardener.py:118-126 | the loop collects exactly the completed paths and promotes each one |
| Gardener.KnowledgeGardener.Forget | scripts/knowledge_gardener.py:129-130 | the collected paths leave the active map |
| Gardener.KnowledgeGardener.ScanLibrary | scripts/knowledge_gardener.py:154-177 | the state becomes the rescan, and removed paths leave the active map too |
| Gardener.KnowledgeGardener.RegisterNew | scripts/knowledge_gardener.py:159-168 | new files enter at stage 0, due today; existing entries are kept |
| Gardener.KnowledgeGardener.DropMissing | scripts/knowledge_gardener.py:170-177 | entries of removed files are deleted from both maps |
| Gardener.KnowledgeGardener.ScheduleReviews | scripts/knowledge_gardener.py:179-225 | over an order that lists each state path once: raises (nothing posted, active map unchanged) iff a candidate has no next_review; otherwise the reminders are those of the chosen paths and the active map gains their returned task ids |
| Gardener.KnowledgeGardener.CollectCandidates | scripts/knowledge_gardener.py:184-192 | the candidate loop yields the candidates in state order |
| Gardener.KnowledgeGardener.PostReminders | scripts/knowledge_gardener.py:206-225 | one reminder per path, in order, and an active entry per returned task |
| Gardener.KnowledgeGardener.Sync | scripts/knowledge_gardener.py:86-102 | the three phases in order (completion check, rescan, scheduling) over an order listing each current file once; the state is the rescanned one; on the KeyError nothing is posted or saved; otherwise the reminders are those of the chosen paths, the active map gains their task ids and both maps are saved |
| Todoist.PriorityValue | scripts/todoist_manager.py:198-199 | the configured priority, or 2 for an unknown key |
| Todoist.DueFor | scripts/todoist_manager.py:209-216 | 0 and 1 give a due word ("today", "tomorrow"), more gives the date N days ahead, and a negative value gives no due string |
| Todoist.ProjectId | scripts/todoist_manager.py:201-206 | a project id is sent only for a truthy project present in the configuration, and it is that project's configured id; without a project table the lookup raises |
| Todoist.LabelNamesOf | scripts/todoist_manager.py:219-224 | at most one name per label key |
| Todoist.LabelNamesCorrect | scripts/todoist_manager.py:219-224 | an entry without a name raises; otherwise the labels are the names of the configured keys, in input order with repeats, unknown keys dropped, and a name is listed iff some key maps to it |
| Todoist.LabelNames | scripts/todoist_manager.py:219-224 | the label loop computes those names |
| Todoist.LabelNamesStaysNone | scripts/todoist_manager.py:219-224 | once a lookup has raised, the whole call raises |
| Todoist.ParamsFor | scripts/todoist_manager.py:196-236 | content, description and due string are as given; the priority is the mapped value, the project id is the looked-up one, the labels are the looked-up names (none without label keys); parent_id is sent only when truthy; building fails exactly when the priority table is missing, the project lookup raises or the label lookup raises |
| Todoist.CreateTask | scripts/todoist_manager.py:181-246 | with no API nothing is sent and the result is None; otherwise the parameters are sent, and the task is returned only when the call succeeded |
| Todoist.BatchRequest | scripts/todoist_manager.py:260-272 | name from name, then content, then "任务 i"; project, priority, due days and labels as given, else "other", "medium", 1 and no labels; description from body, else note, else "" |
| Todoist.TaskName | scripts/todoist_manager.py:263 | the task name is the name, else the content, else "任务 {i}" |
| Todoist.CreatedTasks | scripts/todoist_manager.py:258-279 | at most one created task per input |
| Todoist.BatchResult | scripts/todoist_manager.py:266-279 | call i yields a task iff the remote answered and the parameters could be built, and then it is the remote's task |
| Todoist.CreatedTasksFromRemote | scripts/todoist_manager.py:258-279 | every created task is one the service returned |
| Todoist.CreateTasksBatch | scripts/todoist_manager.py:248-285 | with no API, {0, 0, []}; otherwise success + failed is the number of tasks, and the tasks list has success entries |
| Todoist.CreateBatchTask | scripts/todoist_manager.py:262-273 | one loop iteration: the create_task call for the i-th entry returns BatchResult |
| Todoist.FlattenPaginator | scripts/todoist_manager.py:45-50 | the pages are concatenated in order |
| Todoist.FiltersFor | scripts/todoist_manager.py:366-375 | with neither project nor label, the listing is unfiltered; a project filter is sent only as a truthy id |
| Todoist.GetAllTasks | scripts/todoist_manager.py:361-386 | [] with no API or on any error; otherwise the flattened listing |
| Todoist.LiveIds | scripts/knowledge_gardener.py:112-113 | the live ids are exactly the ids of the listed tasks, and an empty listing has none |
| Applications.ActiveCount | job_search/scripts/application_tracker.py:28-29 | the active count never exceeds the number of records |
| Applications.IsActive | job_search/scripts/application_tracker.py:28-29 | an application not yet submitted is active, and so is one that reached an interview and was not accepted |
| Applications.Saved | job_search/scripts/application_tracker.py:24-31 | the metadata holds the number of records and an active count no larger |
| Applications.NewRecord | job_search/scripts/application_tracker.py:36-70 | the record has the given id, company and position, status "draft" and priority "medium" by default, no interviews, and empty feedback |
| Applications.FindId | job_search/scripts/application_tracker.py:74-75 | the index of the first record with the id, or None when no record has it |
| Applications.StatusNoteIsNewLine | job_search/scripts/application_tracker.py:79-80 | corrected (see Findings): with a line break, the status note becomes one new line after the existing notes |
| Applications.StatusNoteAsWrittenAddsNoLine | job_search/scripts/application_tracker.py:80 | as written, one-line notes stay one line after an update, where two lines were meant |
| Applications.StatusNoteAsWritten | job_search/scripts/application_tracker.py:80 | the note as written starts with a backslash and an `n`, not a line break, and ends with the notes |
| Applications.StatusNote | job_search/scripts/application_tracker.py:80 | the corrected note starts with a line break and ends with the notes |
| Applications.WithStatus | job_search/scripts/application_tracker.py:76-85 | the status and update time change; with notes, the old notes are kept as a prefix and followed by the status note as written, with a backslash and an `n` instead of a line break; every other field is kept |
| Applications.StatusUpdateKeepsOneLine | job_search/scripts/application_tracker.py:79-80 | as written, a status update with one-line inputs leaves one-line notes on one line |
| Applications.WithInterview | job_search/scripts/application_tracker.py:91-105 | exactly one interview is appended, the status becomes "interview_scheduled", the update time is now, and every other field is kept |
| Applications.GetApplications | job_search/scripts/application_tracker.py:109-119 | with no filter, every record is returned |
| Applications.GetApplicationsIsFilter | job_search/scripts/application_tracker.py:109-119 | the result is the order-preserving subsequence with the exact status and the case-insensitive company substring |
| Applications.BreakdownSumsToTotal | job_search/scripts/application_tracker.py:121-136 | the status breakdown counts add up to the number of applications |
| Applications.ResponseRate | job_search/scripts/application_tracker.py:138-145 | the rate lies in [0, 100], and it is 0 when every application is a draft |
| Applications.InterviewRate | job_search/scripts/application_tracker.py:147-155 | the rate lies in [0, 100] |
| Applications.InterviewRateAtMostResponseRate | job_search/scripts/application_tracker.py:138-155 | the interview rate never exceeds the response rate |
| Applications.ApplicationTracker.constructor | job_search/scripts/application_tracker.py:12-22 | the tracker starts from the loaded records |
| Applications.ApplicationTracker.SaveData | job_search/scripts/application_tracker.py:24-34 | the metadata is recomputed from the records |
| Applications.ApplicationTracker.AddApplication | job_search/scripts/application_tracker.py:36-70 | exactly one new record is appended, existing ones are unchanged, and its id is returned |
| Applications.ApplicationTracker.UpdateStatus | job_search/scripts/application_tracker.py:72-87 | True iff some record has the id; then only the first such record changes, to the as-written WithStatus record, and the metadata is recomputed; otherwise nothing changes |
| Applications.ApplicationTracker.AddInterview | job_search/scripts/application_tracker.py:89-107 | True iff some record has the id; then only the first such record gains the interview; otherwise nothing changes |
| Applications.ApplicationTracker.GetSummary | job_search/scripts/application_tracker.py:121-136 | the summary's total, breakdown, rates and active count |
| Applications.CountActive | job_search/scripts/application_tracker.py:28-29 | the counting loop computes the active count |
| Jobs.JobExists | job_search/scripts/job_scraper.py:93-99 | True iff a stored job has the same company and a title equal ignoring case |
| Jobs.FirstMatch | job_search/scripts/job_scraper.py:72-89 | a keyword found is in the list and matches the page; None iff no keyword matches |
| Jobs.FirstMatchIsFirst | job_search/scripts/job_scraper.py:72-89 | the keyword found is the first in list order that matches: no earlier keyword matches (the loop breaks at the first hit) |
| Jobs.ExtractJobs | job_search/scripts/job_scraper.py:61-91 | a page yields at most one job: the job of the first matching keyword, as PageJobs gives it |
| Jobs.PageJobs | job_search/scripts/job_scraper.py:72-89 | a page yields at most one job, none iff no keyword matches, and the job has the company, the page URL and status "active" |
| Jobs.ScrapedJob | job_search/scripts/job_scraper.py:75-87 | the job has the company, the page URL, the scrape time, a title as long as the keyword, status "active", and is not manually added |
| Jobs.JobId | job_search/scripts/job_scraper.py:76 | the id starts with the lower-cased company, spaces replaced by `_`, and a `_` |
| Jobs.ScanPatterns | job_search/scripts/job_scraper.py:72-89 | for any pattern list, the loop yields no job when no pattern matches and otherwise exactly the job of the first match, stopping there |
| Jobs.MergeNew | job_search/scripts/job_scraper.py:51-54 | the scrape loop only appends, and at most one job per found job |
| Jobs.MergeNewKeepsNoDuplicates | job_search/scripts/job_scraper.py:51-54 | the loop keeps "no two jobs share company and case-insensitive title", and every found job is then present |
| Jobs.ManualJob | job_search/scripts/job_scraper.py:120-136 | the job has the given company and title, is marked manual and active, and its id is built from them |
| Jobs.GetJobs | job_search/scripts/job_scraper.py:146-157 | a job is kept iff its company contains the filter ignoring case and the keyword occurs in its title or description ignoring case |
| Jobs.GetJobsIsFilter | job_search/scripts/job_scraper.py:146-157 | the result is the order-preserving filter of the stored jobs by both conditions |
| Jobs.CountTitles | job_search/scripts/job_scraper.py:170-177 | a keyword counts each job at most once |
| Jobs.AddKeywords | job_search/scripts/job_scraper.py:174-177 | the counts only gain keys among the keywords |
| Jobs.PositionTypes | job_search/scripts/job_scraper.py:172-177 | every position type counted is one of the five keywords |
| Jobs.AddKeywordsEffect | job_search/scripts/job_scraper.py:170-177 | one title adds 1 to each distinct keyword it contains, and nothing to the others |
| Jobs.PositionTypesAreCounts | job_search/scripts/job_scraper.py:165-177 | a keyword appears in position_types iff some title contains it, with the number of such jobs, at most total_jobs |
| Jobs.JobScraper.constructor | job_search/scripts/job_scraper.py:14-28 | the scraper starts from the loaded jobs |
| Jobs.JobScraper.SaveData | job_search/scripts/job_scraper.py:30-37 | the metadata records the time and the number of jobs |
| Jobs.JobScraper.ScrapeCompanyCareers | job_search/scripts/job_scraper.py:39-59 | a failed fetch changes nothing; otherwise the store becomes the old store merged with the jobs the page yields, skipping duplicates |
| Jobs.JobScraper.AppendNew | job_search/scripts/job_scraper.py:51-54 | the store becomes the old store merged with the found jobs, skipping duplicates |
| Jobs.JobScraper.ScrapeTargetCompanies | job_search/scripts/job_scraper.py:101-118 | the store becomes the merge of the four target pages in order (ScrapedTargets); it only grows by appends, by at most one job per company, and stays duplicate-free; the metadata is saved |
| Jobs.ScrapedTargets | job_search/scripts/job_scraper.py:101-118 | the store after the first n target pages: it keeps the old jobs as a prefix, gains at most one job per page, and stays duplicate-free |
| Jobs.JobScraper.AddManualJob | job_search/scripts/job_scraper.py:120-144 | appends and returns the id iff no duplicate exists; otherwise returns None and changes nothing |
| Jobs.JobScraper.AnalyzeJobMarket | job_search/scripts/job_scraper.py:159-184 | an empty store gives the error result; otherwise the total, the company counts and the position types |
| Jobs.CountKeywords | job_search/scripts/job_scraper.py:170-177 | the keyword loop computes the per-title counts |
| Jobs.CompanyCountsSumToTotal | job_search/scripts/job_scraper.py:163-168 | the company counts add up to total_jobs |
| Assistant.FirstHit | scripts/personal_assistant.py:101-121 | the value of the first rule, in order, whose words occur in the text, or the default when none does |
| Assistant.DigitsEnd | scripts/personal_assistant.py:126 | the end of the `\d+` run: every character before it is a digit and the next one is not |
| Assistant.ExtractPriority | scripts/personal_assistant.py:94-99 | "high" iff one of 重要/紧急/急/马上/立即/必须 occurs; "medium" otherwise (same in personal_assistant.py:61-66) |
| Assistant.ExtractTimeline | scripts/personal_assistant.py:101-106 | the due days are one of 0, 1, 2, 7 and 14 (personal_assistant.py:68-73) |
| Assistant.TimelineOrder | scripts/personal_assistant.py:101-106 | 今天 wins over everything; 明天 without 今天 gives 1; no time word gives the default 1 |
| Assistant.ExtractProject | scripts/personal_assistant.py:108-121 | one of 工作/学习/生活/沟通/其他, and 其他 iff no project keyword occurs (personal_assistant.py:75-88) |
| Assistant.SpacesEnd | scripts/personal_assistant.py:126 | the end of the `\s*` run |
| Assistant.ExtractDuration | scripts/personal_assistant.py:123-141 | the leftmost number with a unit decides (hours × 60, minutes as is); otherwise 60, 20 or 30 by the effort words (personal_assistant.py:90-108) |
| Assistant.DigitsEndAt | scripts/personal_assistant.py:126 | `\d+` takes the whole digit run |
| Assistant.SearchSkipsDigitFree | scripts/personal_assistant.py:126 | the search passes over text with no digits |
| Assistant.DurationOfStatedTime | scripts/personal_assistant.py:123-131 | "N小时"/"Nh" after digit-free text gives N × 60 minutes, and "N分钟"/"Nmin" gives N |
| Assistant.TasksOf | scripts/personal_assistant.py:77-90 | one task per kept fragment |
| Assistant.ParseUserInput | scripts/personal_assistant.py:55-92 | the loop yields the tasks of the fragments with an indicator word, in order (personal_assistant.py:22-59) |
| Assistant.ParsedTasks | scripts/personal_assistant.py:78-90 | at most one task per sentence split on the delimiters |
| Assistant.ParsedTasksShape | scripts/personal_assistant.py:55-92 | no more tasks than fragments; each task comes from a fragment with an indicator; names are stripped and hold no delimiter |
| Assistant.NumberedAppend | scripts/personal_assistant.py:329-358 | numbering two lists one after the other numbers their concatenation |
| Assistant.NumberedEntry | scripts/personal_assistant.py:329-358 | the i-th task of a section carries number start + i |
| Assistant.BuildSection | scripts/personal_assistant.py:155-166 | a section loop writes the section and returns the next number |
| Assistant.SumMinutes | scripts/personal_assistant.py:168 | the loop computes the total of estimated minutes |
| Assistant.GenerateTaskPlan | scripts/personal_assistant.py:143-171 | no tasks gives the bare "没有识别到具体任务。"; otherwise the plan text and the tasks (personal_assistant.py:110-138) |
| Assistant.PlanText | scripts/personal_assistant.py:152-169 | the plan starts with the task-count header and ends with the total-time line |
| Assistant.PlanEndsWithTotal | scripts/personal_assistant.py:168-169 | the plan ends with the total as h h m min, where h × 60 + m is the total and m < 60 |
| Assistant.GenerateSubject | scripts/personal_assistant.py:308-319 | one task gives its name; several tasks of one project give "{project}任务 ({n}项)"; otherwise "今日计划 ({n}项任务)" |
| Assistant.BuildBody | scripts/personal_assistant.py:321-372 | the body loops write the header, the high tasks, the medium tasks and the footer (personal_assistant.py:198-255) |
| Assistant.BodyText | scripts/personal_assistant.py:326-370 | the body starts with the template header and ends with the footer of the total time and timestamp |
| Assistant.BodyNumbersRunOn | scripts/personal_assistant.py:329-358 | high tasks are numbered 1..h and medium tasks continue from h + 1 (personal_assistant.py:222-240) |
| Assistant.ParsedTasksAllListed | scripts/personal_assistant.py:329-358 | every parsed task appears exactly once in the body's two sections |
| Assistant.SuggestedHourAsWritten | scripts/personal_assistant.py:360-362 | `now.replace(hour=now.hour + total // 60)` succeeds iff the hour stays at most 23 |
| Assistant.LongPlanFailsAsWritten | scripts/personal_assistant.py:360-362 | a plan that reaches midnight makes the body fail; "写报告10小时" at 15:00 is one |
| Assistant.GenerateBodyAsWritten | scripts/personal_assistant.py:321-372 | the body as written is produced iff the current hour plus the total hours is at most 23 (otherwise replace raises), and then it is the body text |
| Assistant.TenHourTask | scripts/personal_assistant.py:123-131 | "写报告10小时" is a 600-minute task |
| Assistant.SuggestedHour | scripts/personal_assistant.py:360-362 | the corrected hour is a valid hour equal to the intended hour modulo 24 |
| Assistant.GenerateBody | scripts/personal_assistant.py:321-372 | the corrected body is always produced, with a valid suggested hour |
| Assistant.CorrectedBodyExtendsAsWritten | scripts/personal_assistant.py:321-372 | whenever the original succeeds, the corrected version gives the same body and hour |
| Assistant.Utf8 | scripts/personal_assistant.py:379-381 | a character encodes to 1 to 4 bytes |
| Assistant.PercentBytes | scripts/personal_assistant.py:379-381 | `%XX` per byte, using only URL-safe characters |
| Assistant.Quote | scripts/personal_assistant.py:379-381 | `urllib.parse.quote` output is URL-safe, and text of unreserved characters is kept as is |
| Assistant.PlainQuote | scripts/personal_assistant.py:379-381 | quoted text holds no line break and no quote mark |
| Assistant.TaskUrl | scripts/personal_assistant.py:377-382 | the URL starts with "omnifocus:///add?name=" |
| Assistant.OpenCommand | scripts/personal_assistant.py:383 | the command is the URL wrapped in "open '" and "'" |
| Assistant.TaskUrlIsPlain | scripts/personal_assistant.py:379-383 | a task URL holds no line break and no quote mark |
| Assistant.OpenCommandShape | scripts/personal_assistant.py:383-384 | a command is one line with exactly two quote marks |
| Assistant.UrlScheme | scripts/personal_assistant.py:374-386 | one `open '…'` command per task, in task order, joined by line breaks after the header (personal_assistant.py:257-269) |
| Assistant.CommandsAreLines | scripts/personal_assistant.py:374-386 | the output splits back into exactly the commands, one per task, each starting with `open '` |
| Common.Title | scripts/knowledge_gardener.py:212 | `str.title()`: same length; a letter is upper-case at the start of a word (after a non-letter) and lower-case inside one; other characters are kept |
| Common.Lower | job_search/scripts/job_scraper.py:174 | `str.lower()`: same length, each character lower-cased |
| Common.Strip | scripts/flashcards.py:157 | `str.strip()`: no surrounding whitespace remains, and an already stripped string is kept |
| Common.ReplaceAll | scripts/sync_notion_anki.py:353 | `str.replace`: replacing a pattern by something no longer never lengthens the string |
| Retry.RunRetries | scripts/sync_eudic_notion.py:54-77 | the attempt loop computes the run of the retry helpers |
| Retry.RunShape | scripts/sync_eudic_notion.py:54-77 | a run makes no more calls than attempts, with one wait between consecutive calls given by the schedule, and every call before the last failed with a retryable error |
| Retry.FallsThroughOnlyWithoutAttempts | notion-kit/notion_wrap.py:62-73 | the loop falls through without a value or an error only when no attempt is allowed |
| Retry.DoneMeansEarlierRetried | scripts/sync_eudic_notion.py:54-77 | a value comes from the last call, and every earlier call failed with a retryable error |
| Retry.ReturnAfterRetriesIsDone | scripts/sync_eudic_notion.py:54-77 | conversely, an attempt that returns after retryable failures only ends the run with its value, after exactly those calls |
| Retry.RunEndsAtLastCall | notion-kit/notion_wrap.py:62-73 | with attempts left a run never falls through; it ends at its last call with the value it returned, or with its error, which was not retryable or came on the last attempt |
| Eudic.RetryOn502 | scripts/sync_eudic_notion.py:56-77 | every call before the last one failed with a 502 |
| Eudic.RetryOn502Bounds | scripts/sync_eudic_notion.py:46-78 | at most max_retries + 1 calls, a wait of delay · 2^i before retry i + 1, and never a fall-through |
| Eudic.Non502RaisedAtOnce | scripts/sync_eudic_notion.py:66-75 | any error other than 502 is raised after the first call, with no wait |
| Eudic.Api502NotRetriedAsWritten | scripts/sync_eudic_notion.py:300-331 | as written, a Notion 502 on page creation gives False after one call and is not retried |
| Eudic.Api502RetriedCorrected | scripts/sync_eudic_notion.py:46-78 | corrected, a 502 followed by success is retried once after a 2-second wait and succeeds |
| Eudic.AttemptAsWritten | scripts/sync_eudic_notion.py:316-331 | add_to_notion returns True iff the create call returns; an HTTP status error is raised unchanged; an API error (502 included) becomes False |
| Eudic.AttemptCorrected | scripts/sync_eudic_notion.py:316-331 | as written, except that a 502 API error is raised so the retry sees it |
| Eudic.AddToNotion | scripts/sync_eudic_notion.py:300-331 | a dry run succeeds; otherwise success is the outcome of the retried page creation as written, where an APIResponseError becomes False inside the decorated call |
| Eudic.Added | scripts/sync_eudic_notion.py:312-331 | a dry run always counts as added, and so does a first call that returns |
| Eudic.AddedCases | scripts/sync_eudic_notion.py:300-331 | outside a dry run: a first creation that succeeds adds the word; an APIResponseError of any status fails it at once; an HTTPStatusError 502 followed by success adds it; any other HTTPStatusError fails it |
| Eudic.PagesTaken | scripts/sync_eudic_notion.py:207-233 | the number of pages fetched stays within the available pages |
| Eudic.FetchAllVocabulary | scripts/sync_eudic_notion.py:207-233 | the paging loop collects the words of pages 1, 2, … |
| Eudic.CollectIsPagePrefix | scripts/sync_eudic_notion.py:207-233 | the words are those of the first pages, concatenated in order |
| Eudic.PagesTakenStops | scripts/sync_eudic_notion.py:218-231 | every page taken is non-empty, all but the last are full, and paging stops at the first empty or short page |
| Eudic.FilterNewWords | scripts/sync_eudic_notion.py:235-249 | exactly the words not yet synced are kept |
| Eudic.FilterNewWordsOrder | scripts/sync_eudic_notion.py:246 | the list order is kept: the new words of a concatenation are those of each part in turn, and one entry is kept iff it is new |
| Eudic.ApplyLimit | scripts/sync_eudic_notion.py:362-365 | with a limit > 0 only the first `limit` words are kept; otherwise all |
| Eudic.WordToNotionCard | scripts/sync_eudic_notion.py:251-297 | front = word; back = exp, or "[phonetic]\n\nexp" when phonetic is non-empty; deck defaults to "欧路词典"; Synced is false |
| Eudic.CardBackEndsWithDefinition | scripts/sync_eudic_notion.py:261-270 | the back ends with the definition, and its first line is the bracketed phonetic when there is one |
| Eudic.Succeeded | scripts/sync_eudic_notion.py:370-392 | at most one synced word per processed word |
| Eudic.EudicSyncManager.constructor | scripts/sync_eudic_notion.py:84-140 | the manager starts from the stored state, or from an empty one |
| Eudic.EudicSyncManager.AddAll | scripts/sync_eudic_notion.py:370-392 | success + failed is the number processed, and synced_words gains exactly the words whose as-written add succeeded, in order |
| Eudic.EudicSyncManager.Sync | scripts/sync_eudic_notion.py:333-413 | no words or no new words gives zero counts with the state untouched; otherwise the counts add up to the processed words, synced_words gains the as-written successes, and total_synced grows by success |
| Eudic.AddedWordsAreNotNew | scripts/sync_eudic_notion.py:370-392 | a word synced in this run is not new in the next one |
| Eudic.SucceededHas | scripts/sync_eudic_notion.py:378-381 | every successful word is recorded |
| Eudic.DryRunAddsAll | scripts/sync_eudic_notion.py:312-392 | a dry run records every processed word |
| Anki.TextOr | scripts/sync_notion_anki.py:399 | the text of an extracted value, or "" when absent (also line 335, and notion-kit/anki_sync.py:344 and 400) |
| Anki.NamesOr | scripts/sync_notion_anki.py:400 | the extracted names, or [] (also line 336, and notion-kit/anki_sync.py:345 and 401) |
| Anki.SanitizeTag | scripts/sync_notion_anki.py:298-302 | every space becomes `_`, every other character and the length are kept, and no space is left |
| Anki.SanitizeTagIdempotent | scripts/sync_notion_anki.py:298-302 | sanitising twice is sanitising once |
| Anki.SanitizeTagKeepsPlain | scripts/sync_notion_anki.py:298-302 | a tag without spaces is unchanged |
| Anki.TagNames | scripts/sync_notion_anki.py:289-290 | one tag per selected name (sanitised in the scripts copy, kept in notion-kit/anki_sync.py:306-307) |
| Anki.ExtractProperty | scripts/sync_notion_anki.py:270-296 | a missing property gives None; title, rich_text, select and url give text or None; multi_select gives names; checkbox gives a flag (notion-kit/anki_sync.py:288-313) |
| Anki.ExtractPropertyCases | scripts/sync_notion_anki.py:270-296 | title and rich_text give the first plain_text, or None when empty; select gives its name and url its value, or None when unset; checkbox gives its flag and defaults to false; multi_select gives the names, sanitised in the scripts copy |
| Anki.Pieces | scripts/sync_notion_anki.py:316-326 | blocks of other types contribute nothing |
| Anki.PageContent | scripts/sync_notion_anki.py:313-329 | the content is stripped; a failed listing or one with no text blocks gives "" (notion-kit/anki_sync.py:323-339) |
| Anki.DropPrefix | scripts/sync_notion_anki.py:354-358 | removing a prefix never lengthens the name |
| Anki.ReplaceAllShrinks | scripts/sync_notion_anki.py:354-358 | `replace(prefix, "")` never lengthens the text |
| Anki.ReplaceAllAbsent | scripts/sync_notion_anki.py:354-358 | replacing a pattern that does not occur changes nothing |
| Anki.WithCortexTag | scripts/sync_notion_anki.py:363-364 | "Cortex" is appended once, only when absent, after the existing tags |
| Anki.WithCortexTagIdempotent | scripts/sync_notion_anki.py:363-364 | adding the Cortex tag twice is adding it once |
| Anki.ConvertCortex | scripts/sync_notion_anki.py:331-366 | None iff the name is missing; otherwise a non-empty back, a deck among Translation/Vocabulary/Phrases, and the Cortex tag (notion-kit/anki_sync.py:341-372) |
| Anki.CortexFront | scripts/sync_notion_anki.py:347-360 | the deck is Translation, Vocabulary or Phrases, and the front is no longer than the name |
| Anki.FieldsOf | scripts/sync_notion_anki.py:386-400 | non-Cortex pages always give fields; a Cortex page gives none iff its Name is empty, and otherwise carries the "Cortex" tag |
| Anki.CortexPrefixes | scripts/sync_notion_anki.py:351-358 | 翻译：, 单词： and 短语： select Translation, Vocabulary and Phrases, and the front is the stripped rest |
| Anki.PrefixRemoved | scripts/sync_notion_anki.py:354-358 | a leading prefix that does not recur leaves the stripped rest |
| Anki.CortexUnprefixed | scripts/sync_notion_anki.py:351-360 | a name without a prefix stays the front, in deck Vocabulary |
| Anki.CortexBack | scripts/sync_notion_anki.py:343-345 | empty page content becomes "（无内容）"; otherwise the back is the content |
| Anki.DirectFields | scripts/sync_notion_anki.py:393-400 | non-Cortex cards take front from Front, back from Back, deck from Deck, source from Source (or "") and tags from Tags (or []) |
| Anki.FullDeckName | scripts/sync_notion_anki.py:408 | "prefix::deck", or the prefix alone when the deck is empty (notion-kit/anki_sync.py:407) |
| Anki.Pow16 | scripts/sync_notion_anki.py:368-372 | a power of 16 is positive |
| Anki.HexValueBound | scripts/sync_notion_anki.py:368-372 | n hex digits have a value below 16^n |
| Anki.Guid | scripts/sync_notion_anki.py:368-372 | the GUID, read from the first 15 hex digits of the digest, lies below 16^15 (notion-kit/anki_sync.py:374-377) |
| Anki.NoteOf | scripts/sync_notion_anki.py:386-426 | a note is packaged exactly when the fields can be read and front and back are non-empty; it carries those fields, the deck "{prefix}::{deck}" and the GUID of the hashed page id |
| Anki.SkipRule | scripts/sync_notion_anki.py:391-405 | a card is skipped iff its front or back is missing (notion-kit/anki_sync.py:390-411) |
| Anki.IsCortexCard | scripts/sync_notion_anki.py:304-311 | a Cortex card has the properties Name, Type and Status |
| Anki.Packaged | scripts/sync_notion_anki.py:386-426 | at most one note per card, each with non-empty front and back |
| Anki.Grouped | scripts/sync_notion_anki.py:407-426 | every deck created holds at least one note |
| Anki.AddToDeck | scripts/sync_notion_anki.py:410-426 | a note is appended to its deck, the deck is created when new, and other decks are untouched |
| Anki.GroupedMembership | scripts/sync_notion_anki.py:407-426 | a deck exists iff some note is for it, and holds exactly the notes for it |
| Anki.PackageContents | scripts/sync_notion_anki.py:374-439 | a note is in a deck iff some card converts to that note for that deck |
| Anki.GroupedStep | scripts/sync_notion_anki.py:386-426 | packaging one more card adds its note to its deck |
| Anki.GroupNotes | scripts/sync_notion_anki.py:386-426 | the packaging loop builds the decks of the converted cards |
| Anki.CreateAnkiPackage | scripts/sync_notion_anki.py:374-439 | no cards gives None; otherwise the decks of the converted cards (notion-kit/anki_sync.py:379-434) |
| Anki.QueryUnsynced | notion-kit/anki_sync.py:224-257 | a page is returned iff it comes from a database that is queried; notion-kit queries a database only when its id is set (scripts/sync_notion_anki.py:195-231) |
| Anki.AnkiSyncManager.constructor | scripts/sync_notion_anki.py:56-132 | the manager starts from the stored state or the default one; the scripts copy demands the ANKI database id (notion-kit/anki_sync.py:75-162) |
| Anki.AnkiSyncManager.Run | scripts/sync_notion_anki.py:523-566 | no cards leaves the state untouched; otherwise total_synced grows by the number of queried cards, skipped ones included, and last_batch_count is that number, saved unless a dry run (notion-kit/anki_sync.py:514-548) |
| NotionWrap.RateLimitBounds | notion-kit/notion_wrap.py:62-73 | at most max_retries calls, a wait of 2^i between calls i and i + 1, and with at least one attempt always a value or an error |
| NotionWrap.RetryOnRateLimit | notion-kit/notion_wrap.py:62-73 | every call before the last one failed with rate_limited |
| NotionWrap.OtherErrorRaisedAtOnce | notion-kit/notion_wrap.py:67-73 | any error other than rate_limited is raised after the first call |
| NotionWrap.AllRateLimited | notion-kit/notion_wrap.py:62-73 | when every call is rate limited, the last error is raised after max_retries calls and waits 2^0, 2^1, … |
| NotionWrap.LabelInjective | notion-kit/notion_wrap.py:135-156 | the properties go out under pairwise different names, so no property overwrites another |
| NotionWrap.AddTaskProperties | notion-kit/notion_wrap.py:130-156 | Name, Week and Auto Created are always set; Type, Status, Tags, Priority and Source exactly when their argument is truthy, each with its value; Last Reviewed never |
| NotionWrap.AddTaskRequest | notion-kit/notion_wrap.py:104-188 | the request goes to the data source with those properties, and carries a paragraph child exactly when the note is non-empty |
| NotionWrap.UpdateTaskProperties | notion-kit/notion_wrap.py:190-236 | exactly the given properties are sent, and Last Reviewed only when the flag is set |
| NotionWrap.ExtractPropertyValue | notion-kit/notion_wrap.py:349-396 | a missing property gives None; title and rich_text give a string, checkbox a flag, and the other types their value or None |
| NotionWrap.ExtractValueCases | notion-kit/notion_wrap.py:360-396 | title and rich_text give the first plain_text or "" when empty; select gives Str of its name or None; multi_select its names; date Str of its start or None; checkbox its flag; number and created_time their value or None |
| NotionWrap.TitleAsConverterReadsIt | notion-kit/notion_wrap.py:362-367 | a title reads the same as notion-kit's converter reads it, with "" in place of None |
| NotionWrap.ParagraphLine | notion-kit/notion_wrap.py:284-289 | only paragraph blocks give a line |
| NotionWrap.GetPageContent | notion-kit/notion_wrap.py:268-294 | the content is the paragraph lines joined by line breaks; a failed listing gives "" |
| NotionWrap.ContentLines | notion-kit/notion_wrap.py:284-290 | the content splits back into exactly one line per paragraph block, in order |
| LifeOsSync.FormatTask | scripts/lifeos_sync.py:175-198 | a task line is "- [ ] " followed by the non-empty parts of LineParts, in order, joined by single spaces |
| LifeOsSync.LineParts | scripts/lifeos_sync.py:178-195 | five parts: the fire icon when flagged and the name (default "Untitled"); the project tag, empty iff the project is Inbox; "@" and the context, empty iff there is no context; the timer icon, the estimate and "min", empty iff the estimate is not positive; "&of:" and the id, or the fresh uuid prefix |
| LifeOsSync.JoinEndsWithLast | scripts/lifeos_sync.py:198 | a join ends with its last part |
| LifeOsSync.FilterLast | scripts/lifeos_sync.py:197 | a kept last part stays last |
| LifeOsSync.FilterFirst | scripts/lifeos_sync.py:197 | a kept first part stays first |
| LifeOsSync.TaskLineShape | scripts/lifeos_sync.py:175-198 | a line ends with "&of:" and the task id; a flagged task's line starts "- [ ] 🔥 " |
| LifeOsSync.TaskLineDefaults | scripts/lifeos_sync.py:178-190 | the project appears as `` `[project]` `` only when it is not Inbox; an unnamed, unflagged task is "Untitled" |
| LifeOsSync.PartitionCoversTasks | scripts/lifeos_sync.py:92-93 | the flagged and unflagged lists together are a permutation of the tasks, split by the flag |
| LifeOsSync.HighPriority | scripts/lifeos_sync.py:92 | only flagged tasks, at most as many as given |
| LifeOsSync.Regular | scripts/lifeos_sync.py:93 | only unflagged tasks, at most as many as given |
| LifeOsSync.TotalEstimated | scripts/lifeos_sync.py:202 | tasks without an estimate count 30 minutes each; with no negative estimate the total is not negative |
| LifeOsSync.BlockHours | scripts/lifeos_sync.py:216-222 | block i starts at 9 + 2i and ends max(1, d // 60) hours later |
| LifeOsSync.DurationLabel | scripts/lifeos_sync.py:218-220 | "{h}h" when no minutes remain, otherwise "{h}h{m}min", with h = d // 60 and m = d % 60 |
| LifeOsSync.Scheduled | scripts/lifeos_sync.py:216 | the morning holds the first three flagged tasks in export order, or all of them when there are fewer |
| LifeOsSync.BlockRow | scripts/lifeos_sync.py:215-225 | a row fails iff the task has no name; otherwise it is "| HH:00-HH:00 | " with start hour 9 + 2i and the BlockHours end hour, both zero-padded, then the first 20 characters of the name, "... | ", the duration label and " |" (the estimate defaults to 60) |
| LifeOsSync.BlockRows | scripts/lifeos_sync.py:215-225 | the rows fail when the last scheduled task has no name |
| LifeOsSync.BlockRowsFailIff | scripts/lifeos_sync.py:215-225 | the rows fail exactly when some scheduled task has no name (task['name'] raises) |
| LifeOsSync.BlockRowsLast | scripts/lifeos_sync.py:215-225 | the rows of a prefix fail, or the last task has no name, exactly when the rows fail |
| LifeOsSync.TimeBlocks | scripts/lifeos_sync.py:200-231 | a zero total gives the fixed default table; otherwise the table is the header, the rows of the scheduled tasks and the two afternoon rows |
| LifeOsSync.TimeBlocksFailIff | scripts/lifeos_sync.py:215-225 | with a non-zero total the table fails (task['name'] raises) exactly when a scheduled task has no name |
| LifeOsSync.GenerateTimeBlocks | scripts/lifeos_sync.py:200-231 | the loop builds that table |
| LifeOsSync.NoRowsAfterFailure | scripts/lifeos_sync.py:216-225 | a task without a name raises (KeyError) and no table is produced |
| LifeOsSync.MorningBlocks | scripts/lifeos_sync.py:212-225 | each block belongs to a flagged task, starts at 9 + 2i, no later than 13:00, and ends after it starts |
| LifeOsSync.ExtractTaskUpdates | scripts/lifeos_sync.py:295-335 | no journal gives no updates; otherwise the completed, then cancelled, then deferred matches |
| LifeOsSync.UpdatesFor | scripts/lifeos_sync.py:307-333 | one update per matched id, each with that list's status |
| LifeOsSync.UpdatesOrdered | scripts/lifeos_sync.py:307-333 | every completed update comes before every cancelled one, which comes before every deferred one |
| LifeOsSync.ScriptFor | scripts/lifeos_sync.py:345-368 | a script exists iff the status is completed, cancelled or deferred |
| LifeOsSync.UpdateOmniFocusTask | scripts/lifeos_sync.py:337-386 | an unknown status returns False without running anything; otherwise the status's script runs and its outcome is returned |
| LifeOsSync.ExtractedUpdatesPassGuard | scripts/lifeos_sync.py:307-368 | every extracted update has a known status, so the guard never refuses it |
| LogseqTracker.JournalName | scripts/logseq_tracker.py:34-41 | the journal name is 13 characters, `YYYY_MM_DD.md` |
| LogseqTracker.JournalNameRoundTrip | scripts/logseq_tracker.py:39 | the digits between the underscores read back as the year, month and day |
| LogseqTracker.PadWidth | scripts/logseq_tracker.py:39 | a number below 10^width pads to exactly width digits |
| LogseqTracker.CategoryLabel | scripts/logseq_tracker.py:240-250 | a known category gives its label, and any other gives 工作任务: |
| LogseqTracker.LogEntry | scripts/logseq_tracker.py:229-237 | the entry starts with "    - {time} {content} " and the duration in parentheses when truthy; it ends with the rating tag and a line break when the rating is truthy, else with a space and a line break |
| LogseqTracker.EntryHead | scripts/logseq_tracker.py:229-232 | the head holds no line break when time, content and duration hold none |
| LogseqTracker.EntryScore | scripts/logseq_tracker.py:234-235 | the rating tag is empty iff the rating is not truthy |
| LogseqTracker.EntryIsOneLine | scripts/logseq_tracker.py:229-237 | with break-free parts, the entry is exactly one journal line |
| LogseqTracker.FirstLineWith | scripts/logseq_tracker.py:253-256 | the index of the first line containing the label, or None iff no line does |
| LogseqTracker.Journal.constructor | scripts/logseq_tracker.py:224-226 | the journal holds the lines read |
| LogseqTracker.Journal.LogActivity | scripts/logseq_tracker.py:218-263 | the entry goes directly after the first line with the label; with no such line nothing changes |
| LogseqTracker.FirstLineIs | scripts/logseq_tracker.py:253-256 | the loop's break index is the first line with the label |
| LogseqTracker.InsertionKeepsOtherLines | scripts/logseq_tracker.py:253-256 | exactly one line is added, directly below the label line; removing it gives back the journal |
| LogseqTracker.ExtractTasks | scripts/logseq_tracker.py:353-363 | the four task categories each map to an empty list |
| LogseqTracker.Weekday | scripts/logseq_tracker.py:381 | `date.weekday()` is in 0..6 |
| LogseqTracker.WeekStart | scripts/logseq_tracker.py:381 | the week start is the Monday of the week weeksBack weeks ago: within the 7 days up to it |
| LogseqTracker.WeekWindow | scripts/logseq_tracker.py:378-389 | the window starts on a Monday and contains the day `weeks_back` weeks before today |
| LogseqTracker.Present | scripts/logseq_tracker.py:400-401 | only non-zero ratings are kept, at most one per day |
| LogseqTracker.PresentMembership | scripts/logseq_tracker.py:400-401 | a rating is averaged iff it is non-zero and recorded |
| LogseqTracker.Trend | scripts/logseq_tracker.py:413-414 | 上升 iff there are at least two values and the last exceeds the first; 稳定 otherwise |
| LogseqTracker.Moods | scripts/logseq_tracker.py:400 | the mood of each recorded day, in order |
| LogseqTracker.Energies | scripts/logseq_tracker.py:401 | the energy of each recorded day, in order |
| LogseqTracker.AnalyzeWeek | scripts/logseq_tracker.py:394-420 | no data gives the report "本周暂无数据"; otherwise the number of days and the trends of the non-zero moods and energies |
| LogseqTracker.GenerateWeeklyReport | scripts/logseq_tracker.py:378-392 | the report reads the 7 days of the window, keeps the days that have a journal (at most 7), and analyses them |

## Left out

- Files, JSON loading and saving, the clock, `random.shuffle`, `time.sleep` and every remote service are not modelled. Notion, Todoist, Eudic, Telegram, OmniFocus/AppleScript, SMTP, genanki and git are abstract results passed in as parameters. The only file behaviour kept is the "missing or corrupt → {}" fallback.
- Python's salted `hash()` (flashcard ids, Anki deck ids) and MD5 (Anki GUIDs) are parameters; the GUID keeps only its bound. `uuid` prefixes are parameters.
- Ease factors are exact reals. IEEE rounding of `interval * ease_factor` can differ from the exact product in rare cases.
- The weekly averages of the Logseq report and the application rates are floating point in the scripts. The model keeps the rating lists the averages are taken over; it states the rates as exact reals.
- Case-insensitive comparisons, `str.lower()`, `str.title()` and `\d`/`\s` are ASCII-only here (plus the Unicode whitespace that `strip` removes).
- The regular expressions of `extract_jobs_from_html`, `extract_daily_data`, `update_daily_data` and the notes extraction of `extract_task_updates_from_logseq` are parameters (a match predicate or the matched lists). The flashcard Q/A pattern and the duration pattern are modelled.
- The journal, weekly-review, project and book templates of logseq_tracker.py, and the e-mail templates other than the default, are not modelled; `ensure_daily_template` is left out because it only writes the template file.
- LogseqTracker.JournalName: the model pads the year to four digits and covers years 1000 to 9999, where `strftime("%Y")` does the same.
- `Weekday` and `WeekStart` take dates as proleptic Gregorian ordinals. The conversion between ordinals and calendar dates is not modelled.
- The week string of `add_task` and `query_current_week` (`%Y-W%V`: the calendar year with the ISO week number, so 2024-12-30 gives "2024-W01") is a parameter.
- Notion `number` values are integers here; the `data_source_id` resolution of both Notion clients is a parameter.
- The Telegram upload and the Notion status update after an Anki sync are not modelled, since both are remote calls.
- Eudic.FetchAllVocabulary: the service is a finite list of pages, and any page past it is empty, so the `while True` loop always ends.
- The job scraper's HTTP fetch, and the job manager and resume generator around it, are not modelled.
- The interactive parts of `review_loop` (prompts, `input()`, KeyboardInterrupt) are a sequence of typed lines, read one at the reveal prompt and then until an accepted rating for each card. The end of that sequence stands for an interruption: the session stops with the grades given so far, which `_update_card` has already saved.
- FirstMatch: its own contract does not state that the keyword is the first match in list order; the lemma FirstMatchIsFirst proves that.
- BlockRows: its own contract states only the last-task case; the lemma BlockRowsFailIff states when the rows fail, in both directions.
- JobId: the contract states the company part of the id only; the keyword part and the Unix time stamp (a parameter) are not stated.
- ScrapedJob: the title is `keyword.title()`, which the contract states by its length only.

## Findings

| source | as written | input that shows it | evidently intended | confidence | as-written member | corrected member |
|---|---|---|---|---|---|---|
| scripts/knowledge_gardener.py:190-195 | the candidate filter reads a missing next_review as 1970-01-01, but the sort key indexes `state[x]["next_review"]` and raises KeyError, so the sync stops before saving | a state entry `{"stage": 0, "last_review": null}` with no next_review and no active reminder | sort with the same default as the filter | not executed | Gardener.MissingNextReviewRaises | Gardener.SortByDueCorrect |
| scripts/personal_assistant.py:360-362 | `now.replace(hour=now.hour + total // 60)` raises ValueError once the hour passes 23, so the e-mail body is never produced | the input "写报告10小时" at 15:00 | wrap the suggested hour (or cap it) so the body is always produced | not executed | Assistant.LongPlanFailsAsWritten | Assistant.GenerateBody |
| scripts/sync_eudic_notion.py:300-331 | add_to_notion catches the API error of the page creation itself and returns False, so `retry_on_502` never sees a Notion 502 | the page creation failing once with status 502 and then succeeding | let a 502 reach the retry decorator | not executed | Eudic.Api502NotRetriedAsWritten | Eudic.Api502RetriedCorrected |
| job_search/scripts/application_tracker.py:80 | the status note is written with `\\n`, a backslash and an `n`, not a line break | one-line notes followed by any status update with notes | start the status note on a new line | not executed | Applications.StatusNoteAsWrittenAddsNoLine | Applications.StatusNoteIsNewLine |

The operations of the gardener, the Eudic sync and the application store follow the code as written (KnowledgeGardener.ScheduleReviews and Sync raise on the missing key, Eudic.Added uses the as-written attempt, Applications.WithStatus writes the backslash and `n`); the corrected definitions and their properties are proved beside them. The assistant's e-mail body is the exception: Assistant.GenerateBody is the corrected body, labelled so in its row, and Assistant.CorrectedBodyExtendsAsWritten shows it agrees with the original wherever the original succeeds.
