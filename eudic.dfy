/**
 * The Eudic-to-Notion vocabulary sync: fetch the Eudic study list page by
 * page, keep the words not synced before, optionally only the first `limit`
 * of them, add each as a card to the Notion database (retrying a 502
 * response with exponential back-off), and record the words that were
 * added together with the running total.
 *
 * The Eudic API is the finite list of its pages (a page past the end, or a
 * failed request, is empty); the Notion page creation is a parameter giving
 * the outcome of each call; the clock gives the sync time.
 */
module Eudic {
  import opened Common
  import opened Retry

  /** One entry of the study list; each key may be missing. */
  datatype WordData = WordData(word: Option<string>, exp: Option<string>, phonetic: Option<string>)

  /** The errors the retry decorator catches, with their HTTP status. */
  datatype NotionError = ApiResponseError(status: int) | HttpStatusError(status: int)

  datatype Stats = Stats(total: nat, newWords: nat, success: nat, failed: nat)

  // ---------------------------------------------------------------------
  // retry_on_502(max_retries=3, delay=2)

  const MaxRetries: nat := 3
  const Delay: nat := 2

  /** The sleep before retrying after attempt number a. */
  function Backoff(a: nat): int {
    Delay * Pow2(a)
  }

  predicate Is502(e: NotionError) {
    e.status == 502
  }

  /** One attempt of the decorated add_to_notion as written: the page
      creation's APIResponseError is caught inside and becomes False, so
      only an HTTPStatusError reaches the decorator. */
  function AttemptAsWritten(create: nat -> Attempt<(), NotionError>): (r: nat -> Attempt<bool, NotionError>)
    ensures forall a: nat :: r(a).Failed? ==> r(a).error.HttpStatusError? && create(a) == Failed(r(a).error)
    ensures forall a: nat :: r(a) == Returned(true) <==> create(a).Returned?
  {
    (a: nat) =>
      match create(a)
      case Returned(_) => Returned(true)
      case Failed(ApiResponseError(_)) => Returned(false)
      case Failed(e) => Failed(e)
  }

  /** One attempt with the evidently intended behaviour: a 502 of either
      kind reaches the decorator; any other APIResponseError is still
      reported as False. */
  function AttemptCorrected(create: nat -> Attempt<(), NotionError>): (r: nat -> Attempt<bool, NotionError>)
    ensures forall a: nat :: r(a).Failed? <==> create(a).Failed? && (Is502(create(a).error) || create(a).error.HttpStatusError?)
    ensures forall a: nat :: r(a).Failed? ==> create(a) == Failed(r(a).error)
    ensures forall a: nat :: r(a) == Returned(true) <==> create(a).Returned?
  {
    (a: nat) =>
      match create(a)
      case Returned(_) => Returned(true)
      case Failed(e) => if Is502(e) || e.HttpStatusError? then Failed(e) else Returned(false)
  }

  /** The decorated call: max_retries + 1 attempts, a 502 retried while
      attempts remain with a wait of delay * 2^attempt seconds. */
  function RetryOn502(attempt: nat -> Attempt<bool, NotionError>): (r: Run<bool, NotionError>)
    ensures forall a :: 0 <= a < r.calls - 1 ==> attempt(a).Failed? && Is502(attempt(a).error)
  {
    RunShape(attempt, MaxRetries + 1, Is502, Backoff, 0);
    RunFrom(attempt, MaxRetries + 1, Is502, Backoff, 0)
  }

  /** The decorator makes at most max_retries + 1 calls, waits
      delay * 2^i before retry i + 1, and never falls out of its loop. */
  lemma RetryOn502Bounds(attempt: nat -> Attempt<bool, NotionError>)
    ensures var r := RetryOn502(attempt);
            1 <= r.calls <= MaxRetries + 1 && |r.waits| == r.calls - 1
            && (forall i :: 0 <= i < |r.waits| ==> r.waits[i] == 2 * Pow2(i))
            && !r.outcome.FellThrough?
  {
    RunShape(attempt, MaxRetries + 1, Is502, Backoff, 0);
    FallsThroughOnlyWithoutAttempts(attempt, MaxRetries + 1, Is502, Backoff, 0);
  }

  /** A non-502 error is raised at once, after a single call. */
  lemma Non502RaisedAtOnce(attempt: nat -> Attempt<bool, NotionError>)
    requires attempt(0).Failed? && !Is502(attempt(0).error)
    ensures RetryOn502(attempt) == Run(Raised(attempt(0).error), 1, [])
  {
  }

  /** As written, a 502 APIResponseError from the page creation is never
      retried: add_to_notion returns False after one call. */
  lemma Api502NotRetriedAsWritten(create: nat -> Attempt<(), NotionError>)
    requires create(0) == Failed(ApiResponseError(502))
    ensures RetryOn502(AttemptAsWritten(create)) == Run(Done(false), 1, [])
  {
  }

  /** Corrected, the same 502 is retried after two seconds, and a second
      attempt that creates the page makes the call succeed. */
  lemma Api502RetriedCorrected(create: nat -> Attempt<(), NotionError>)
    requires create(0) == Failed(ApiResponseError(502)) && create(1) == Returned(())
    ensures RetryOn502(AttemptCorrected(create)) == Run(Done(true), 2, [2])
  {
    assert RunFrom(AttemptCorrected(create), MaxRetries + 1, Is502, Backoff, 1) == Run(Done(true), 1, []);
  }

  /** Whether add_to_notion for one word reports success: always in a dry
      run, otherwise when the retried creation, as written, returned True;
      an error the decorator raises is caught by the sync and counts as a
      failure. */
  predicate Added(dryRun: bool, create: nat -> Attempt<(), NotionError>)
    ensures dryRun ==> Added(dryRun, create)
    ensures create(0).Returned? ==> Added(dryRun, create)
  {
    dryRun || RetryOn502(AttemptAsWritten(create)).outcome == Done(true)
  }

  /** add_to_notion under the decorator. */
  method AddToNotion(dryRun: bool, create: nat -> Attempt<(), NotionError>) returns (ok: bool)
    ensures ok == Added(dryRun, create)
  {
    if dryRun {
      return true;
    }
    var outcome, calls, waits := RunRetries(AttemptAsWritten(create), MaxRetries + 1, Is502, Backoff);
    ok := outcome == Done(true);
  }

  /** Outside a dry run, a word is added when the first creation succeeds;
      an APIResponseError of any status on the first creation fails the
      word at once; only an HTTPStatusError 502 is retried. */
  lemma AddedCases(create: nat -> Attempt<(), NotionError>)
    ensures create(0).Returned? ==> Added(false, create)
    ensures create(0).Failed? && create(0).error.ApiResponseError? ==> !Added(false, create)
    ensures create(0) == Failed(HttpStatusError(502)) && create(1).Returned? ==> Added(false, create)
    ensures create(0).Failed? && create(0).error.HttpStatusError? && !Is502(create(0).error) ==> !Added(false, create)
  {
    if create(0) == Failed(HttpStatusError(502)) && create(1).Returned? {
      assert RunFrom(AttemptAsWritten(create), MaxRetries + 1, Is502, Backoff, 1) == Run(Done(true), 1, []);
    }
  }

  // ---------------------------------------------------------------------
  // Fetching and filtering

  /** The page with number p (from 1); empty past the end. */
  function PageAt(pages: seq<seq<WordData>>, p: nat): seq<WordData> {
    if 1 <= p <= |pages| then pages[p - 1] else []
  }

  /** The words fetch_all_vocabulary collects from page p on: each page is
      added until an empty page, and a page shorter than page_size is the
      last one added. */
  function CollectFrom(pages: seq<seq<WordData>>, pageSize: nat, p: nat): seq<WordData>
    requires p >= 1
    decreases |pages| + 1 - p
  {
    var words := PageAt(pages, p);
    if words == [] then []
    else if |words| < pageSize then words
    else words + CollectFrom(pages, pageSize, p + 1)
  }

  /** The number of pages the collection takes, from page p on. */
  function PagesTaken(pages: seq<seq<WordData>>, pageSize: nat, p: nat): (k: nat)
    requires 1 <= p <= |pages| + 1
    ensures p - 1 + k <= |pages|
    decreases |pages| + 1 - p
  {
    var words := PageAt(pages, p);
    if words == [] then 0
    else if |words| < pageSize then 1
    else 1 + PagesTaken(pages, pageSize, p + 1)
  }

  /** fetch_all_vocabulary: the paging loop. */
  method FetchAllVocabulary(pages: seq<seq<WordData>>, pageSize: nat) returns (all: seq<WordData>)
    ensures all == CollectFrom(pages, pageSize, 1)
  {
    all := [];
    var page := 1;
    while true
      invariant page >= 1
      invariant CollectFrom(pages, pageSize, 1) == all + CollectFrom(pages, pageSize, page)
      decreases |pages| + 1 - page
    {
      var words := PageAt(pages, page);
      if words == [] {
        assert CollectFrom(pages, pageSize, page) == [];
        assert all + [] == all;
        break;
      }
      if |words| < pageSize {
        assert CollectFrom(pages, pageSize, page) == words;
        all := all + words;
        break;
      }
      var rest := CollectFrom(pages, pageSize, page + 1);
      assert page <= |pages| && CollectFrom(pages, pageSize, page) == words + rest;
      assert all + (words + rest) == (all + words) + rest;
      all := all + words;
      page := page + 1;
    }
  }

  lemma {:induction false} ConcatCons<T>(x: seq<T>, rest: seq<seq<T>>)
    ensures Concat([x] + rest) == x + Concat(rest)
    decreases |rest|
  {
    if rest == [] {
      assert [x] + rest == [x];
      assert [x][..0] == [];
    } else {
      var init := rest[..|rest| - 1];
      assert ([x] + rest)[..|[x] + rest| - 1] == [x] + init;
      ConcatCons(x, init);
    }
  }

  /** The collected words are the first k pages, in order. */
  lemma {:induction false} CollectIsPagePrefix(pages: seq<seq<WordData>>, pageSize: nat, p: nat)
    requires 1 <= p <= |pages| + 1
    ensures CollectFrom(pages, pageSize, p) == Concat(pages[p - 1..p - 1 + PagesTaken(pages, pageSize, p)])
    decreases |pages| + 1 - p
  {
    var words := PageAt(pages, p);
    if words == [] {
      assert PagesTaken(pages, pageSize, p) == 0 && CollectFrom(pages, pageSize, p) == [];
      assert pages[p - 1..p - 1] == [];
    } else if |words| < pageSize {
      assert PagesTaken(pages, pageSize, p) == 1 && CollectFrom(pages, pageSize, p) == words;
      LastPage(pages, p);
    } else {
      CollectIsPagePrefix(pages, pageSize, p + 1);
      FullPage(pages, pageSize, p);
    }
  }

  lemma LastPage(pages: seq<seq<WordData>>, p: nat)
    requires 1 <= p <= |pages|
    ensures Concat(pages[p - 1..p]) == pages[p - 1]
  {
    assert pages[p - 1..p] == [pages[p - 1]];
    assert [pages[p - 1]][..0] == [];
  }

  /** A full page is followed by the collection from the next page on. */
  lemma FullPage(pages: seq<seq<WordData>>, pageSize: nat, p: nat)
    requires 1 <= p <= |pages|
    requires pages[p - 1] != [] && |pages[p - 1]| >= pageSize
    requires CollectFrom(pages, pageSize, p + 1) == Concat(pages[p..p + PagesTaken(pages, pageSize, p + 1)])
    ensures CollectFrom(pages, pageSize, p) == Concat(pages[p - 1..p - 1 + PagesTaken(pages, pageSize, p)])
  {
    var words := pages[p - 1];
    var k1 := PagesTaken(pages, pageSize, p + 1);
    var rest := CollectFrom(pages, pageSize, p + 1);
    assert PagesTaken(pages, pageSize, p) == 1 + k1;
    assert CollectFrom(pages, pageSize, p) == words + rest;
    assert p - 1 + PagesTaken(pages, pageSize, p) == p + k1;
    ConcatSliceStep(pages, p - 1, p + k1);
    assert rest == Concat(pages[p..p + k1]);
  }

  lemma ConcatSliceStep<T>(ss: seq<seq<T>>, a: nat, b: nat)
    requires a < b <= |ss|
    ensures Concat(ss[a..b]) == ss[a] + Concat(ss[a + 1..b])
  {
    SliceCons(ss, a, b);
    ConcatCons(ss[a], ss[a + 1..b]);
  }

  lemma SliceCons<T>(s: seq<T>, a: nat, b: nat)
    requires a < b <= |s|
    ensures s[a..b] == [s[a]] + s[a + 1..b]
  {
    assert s[a..b][1..] == s[a + 1..b];
  }

  /** The pages taken are non-empty and all but the last are full; the
      collection stops because the next page is empty or the last one taken
      was short (or the pages ran out). */
  lemma {:induction false} PagesTakenStops(pages: seq<seq<WordData>>, pageSize: nat, p: nat)
    requires 1 <= p <= |pages| + 1
    ensures var k := PagesTaken(pages, pageSize, p);
            (forall j :: p - 1 <= j < p - 1 + k ==> pages[j] != [])
            && (forall j :: p - 1 <= j < p - 2 + k ==> |pages[j]| >= pageSize)
            && (p - 1 + k < |pages| ==> pages[p - 1 + k] == [] || (k > 0 && |pages[p - 2 + k]| < pageSize))
    decreases |pages| + 1 - p
  {
    var words := PageAt(pages, p);
    if words != [] && |words| >= pageSize {
      PagesTakenStops(pages, pageSize, p + 1);
    }
  }

  /** The entry is kept by filter_new_words: its word is missing or not
      among the synced words. */
  predicate IsNew(synced: seq<string>, w: WordData) {
    w.word.None? || w.word.value !in synced
  }

  /** filter_new_words, keeping order. */
  function FilterNewWords(words: seq<WordData>, synced: seq<string>): (r: seq<WordData>)
    ensures |r| <= |words|
    ensures forall w :: w in r <==> w in words && IsNew(synced, w)
  {
    var r := Filter(words, (w: WordData) => IsNew(synced, w));
    assert forall w :: w in r <==> w in words && IsNew(synced, w) by {
      forall w ensures w in r <==> w in words && IsNew(synced, w) {
        FilterMembership(words, (w: WordData) => IsNew(synced, w), w);
      }
    }
    r
  }

  /** filter_new_words keeps the list order: the new words of a
      concatenation are those of each part, in turn, and a single entry is
      kept exactly when it is new. */
  lemma FilterNewWordsOrder(a: seq<WordData>, b: seq<WordData>, synced: seq<string>)
    ensures FilterNewWords(a + b, synced) == FilterNewWords(a, synced) + FilterNewWords(b, synced)
    ensures forall w :: FilterNewWords([w], synced) == if IsNew(synced, w) then [w] else []
  {
    FilterAppend(a, b, (w: WordData) => IsNew(synced, w));
    forall w ensures FilterNewWords([w], synced) == if IsNew(synced, w) then [w] else [] {
      assert [w][..0] == [];
    }
  }

  /** `new_words[:limit]` when the limit is set and positive. */
  function ApplyLimit(words: seq<WordData>, limit: Option<int>): (r: seq<WordData>)
    ensures r <= words
    ensures limit.Some? && limit.value > 0 ==> |r| == if limit.value < |words| then limit.value else |words|
    ensures !(limit.Some? && limit.value > 0) ==> r == words
  {
    if limit.Some? && limit.value > 0 && limit.value < |words| then words[..limit.value] else words
  }

  // ---------------------------------------------------------------------
  // The card

  datatype Card = Card(front: string, back: string, deck: string, tags: seq<string>, synced: bool)

  /** word_to_notion_card: the back is the definition, preceded by the
      bracketed phonetic and a blank line when there is one. */
  function WordToNotionCard(w: WordData, autoTags: Option<seq<string>>, deckName: Option<string>): (c: Card)
    ensures c.front == w.word.GetOr("") && !c.synced && c.tags == autoTags.GetOr([])
    ensures c.deck == if deckName.Some? then deckName.value else "欧路词典"
    ensures w.phonetic.GetOr("") == "" ==> c.back == w.exp.GetOr("")
    ensures w.phonetic.GetOr("") != "" ==>
              c.back == "[" + w.phonetic.value + "]\n\n" + w.exp.GetOr("")
  {
    var exp := w.exp.GetOr("");
    var phonetic := w.phonetic.GetOr("");
    Card(w.word.GetOr(""), if phonetic != "" then "[" + phonetic + "]\n\n" + exp else exp,
         deckName.GetOr("欧路词典"), autoTags.GetOr([]), false)
  }

  /** The definition always ends the back; with a phonetic the back's first
      line is the bracketed phonetic. */
  lemma CardBackEndsWithDefinition(w: WordData, autoTags: Option<seq<string>>, deckName: Option<string>)
    ensures var c := WordToNotionCard(w, autoTags, deckName);
            var exp := w.exp.GetOr("");
            |exp| <= |c.back| && c.back[|c.back| - |exp|..] == exp
            && (w.phonetic.GetOr("") != "" && '\n' !in w.phonetic.value ==>
                  Lines(c.back)[0] == "[" + w.phonetic.value + "]")
  {
    var c := WordToNotionCard(w, autoTags, deckName);
    var exp := w.exp.GetOr("");
    if w.phonetic.GetOr("") != "" {
      var head := "[" + w.phonetic.value + "]";
      assert c.back == head + "\n" + ("\n" + exp);
      assert c.back[|c.back| - |exp|..] == exp;
      if '\n' !in w.phonetic.value {
        LinesAppend(head, "\n" + exp);
        NoBreakLine(head);
      }
    }
  }

  lemma NoBreakLine(s: string)
    requires '\n' !in s
    ensures Lines(s)[0] == s
  {
    NoBreakPiece(s, "");
    assert "" + s == s;
  }

  lemma {:induction false} NoBreakPiece(s: string, cur: string)
    requires '\n' !in s
    ensures SplitFrom(s, {'\n'}, cur) == [cur + s]
    decreases |s|
  {
    if s != [] {
      assert s[0] != '\n' && '\n' !in s[1..];
      NoBreakPiece(s[1..], cur + [s[0]]);
      assert cur + [s[0]] + s[1..] == cur + s;
    } else {
      assert cur + s == cur;
    }
  }

  // ---------------------------------------------------------------------
  // The sync

  /** The words added, in order: the name (or "") of each processed entry
      whose add succeeded. */
  function Succeeded(words: seq<WordData>, ok: nat -> bool): (r: seq<string>)
    ensures |r| <= |words|
  {
    if words == [] then []
    else Succeeded(words[..|words| - 1], ok) + (if ok(|words| - 1) then [words[|words| - 1].word.GetOr("")] else [])
  }

  /** Which processed words are reported added. */
  function AddResults(dryRun: bool, creates: nat -> nat -> Attempt<(), NotionError>): nat -> bool {
    (i: nat) => Added(dryRun, creates(i))
  }

  class EudicSyncManager {
    const dryRun: bool
    const limit: Option<int>
    var syncedWords: seq<string>
    var totalSynced: nat
    var lastSync: Option<string>

    /** _load_state: the stored state, or an empty one. */
    constructor (dryRun: bool, limit: Option<int>, stored: Option<(seq<string>, nat, Option<string>)>)
      ensures this.dryRun == dryRun && this.limit == limit
      ensures stored.None? ==> syncedWords == [] && totalSynced == 0 && lastSync.None?
      ensures stored.Some? ==> (syncedWords, totalSynced, lastSync) == stored.value
    {
      this.dryRun, this.limit := dryRun, limit;
      if stored.Some? {
        syncedWords, totalSynced, lastSync := stored.value.0, stored.value.1, stored.value.2;
      } else {
        syncedWords, totalSynced, lastSync := [], 0, None;
      }
    }

    /** The entries a sync processes: the new words, limited. */
    function Processed(all: seq<WordData>): seq<WordData>
      reads this
    {
      ApplyLimit(FilterNewWords(all, syncedWords), limit)
    }

    /** The loop of sync over the processed words. */
    method AddAll(words: seq<WordData>, creates: nat -> nat -> Attempt<(), NotionError>)
      returns (success: nat, failed: nat)
      modifies this`syncedWords
      ensures success + failed == |words|
      ensures syncedWords == old(syncedWords) + Succeeded(words, AddResults(dryRun, creates))
      ensures success == |Succeeded(words, AddResults(dryRun, creates))|
    {
      ghost var ok := AddResults(dryRun, creates);
      success, failed := 0, 0;
      for i := 0 to |words|
        invariant success + failed == i
        invariant syncedWords == old(syncedWords) + Succeeded(words[..i], ok)
        invariant success == |Succeeded(words[..i], ok)|
      {
        assert words[..i + 1][..i] == words[..i];
        var added := AddToNotion(dryRun, creates(i));
        assert added == ok(i);
        if added {
          success := success + 1;
          syncedWords := syncedWords + [words[i].word.GetOr("")];
        } else {
          failed := failed + 1;
        }
      }
      assert words[..|words|] == words;
    }

    /** sync: `creates(i)` gives the outcomes of the page creations for the
        i-th processed word, `now` the time _save_state records. Nothing
        changes when nothing was fetched or nothing is new. */
    method Sync(pages: seq<seq<WordData>>, pageSize: nat, creates: nat -> nat -> Attempt<(), NotionError>,
                now: string)
      returns (stats: Stats)
      modifies this
      ensures var all := CollectFrom(pages, pageSize, 1);
              var processed := old(Processed(all));
              (all == [] || processed == [] ==>
                 stats == Stats(|all|, 0, 0, 0) && syncedWords == old(syncedWords)
                 && totalSynced == old(totalSynced) && lastSync == old(lastSync))
              && (all != [] && processed != [] ==>
                    stats.total == |all| && stats.newWords == |processed|
                    && stats.success + stats.failed == |processed|
                    && syncedWords == old(syncedWords) + Succeeded(processed, AddResults(dryRun, creates))
                    && stats.success == |Succeeded(processed, AddResults(dryRun, creates))|
                    && totalSynced == old(totalSynced) + stats.success
                    && lastSync == (if dryRun then old(lastSync) else Some(now)))
    {
      var all := FetchAllVocabulary(pages, pageSize);
      if all == [] {
        return Stats(0, 0, 0, 0);
      }
      var newWords := FilterNewWords(all, syncedWords);
      if newWords == [] {
        return Stats(|all|, 0, 0, 0);
      }
      newWords := ApplyLimit(newWords, limit);
      var success, failed := AddAll(newWords, creates);
      totalSynced := totalSynced + success;
      if !dryRun {
        lastSync := Some(now);
      }
      return Stats(|all|, |newWords|, success, failed);
    }
  }

  /** A word added by a sync is skipped by the next one: filtering against
      the new synced list drops every entry carrying an added word. */
  lemma AddedWordsAreNotNew(words: seq<WordData>, ok: nat -> bool, synced: seq<string>, all: seq<WordData>)
    ensures forall i :: 0 <= i < |words| && ok(i) && words[i].word.Some? ==>
              words[i] !in FilterNewWords(all, synced + Succeeded(words, ok))
  {
    forall i | 0 <= i < |words| && ok(i) && words[i].word.Some?
      ensures words[i] !in FilterNewWords(all, synced + Succeeded(words, ok))
    {
      SucceededHas(words, ok, i);
    }
  }

  lemma {:induction false} SucceededHas(words: seq<WordData>, ok: nat -> bool, i: nat)
    requires i < |words| && ok(i)
    ensures words[i].word.GetOr("") in Succeeded(words, ok)
  {
    var n := |words| - 1;
    if i < n {
      SucceededHas(words[..n], ok, i);
    }
  }

  /** In a dry run every processed word counts as added. */
  lemma {:induction false} DryRunAddsAll(words: seq<WordData>, creates: nat -> nat -> Attempt<(), NotionError>)
    ensures Succeeded(words, AddResults(true, creates)) == seq(|words|, i requires 0 <= i < |words| => words[i].word.GetOr(""))
  {
    if words != [] {
      var n: nat := |words| - 1;
      DryRunAddsAll(words[..n], creates);
      assert Added(true, creates(n));
      assert AddResults(true, creates)(n);
    }
  }
}
