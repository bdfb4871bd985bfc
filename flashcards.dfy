/**
 * The terminal flashcard reviewer: cards are the "Q:"/"A:" blocks of the
 * Markdown notes, progress is a map from card id to the SM-2 scheduling
 * state, and a review session grades the due cards one by one.
 *
 * Dates are day numbers (the "%Y-%m-%d" strings of the progress file
 * compare like the days they name). The card id is Python's salted hash of
 * "source:question", which is not a stable function; it is a parameter
 * `idOf` here. Reading files, the clock and the random shuffle are inputs.
 */
module Flashcards {
  import opened Common

  // ---------------------------------------------------------------------
  // SM-2

  /** The three numbers SM-2 keeps per card. */
  datatype Sm2 = Sm2(repetitions: int, easeFactor: real, interval: int)

  /** The state _update_card starts from for a card never graded. */
  const NewCard: Sm2 := Sm2(0, 2.5, 0)

  const MinEase: real := 1.3

  /** Python's int() on a float: truncation toward zero. */
  function Trunc(x: real): (n: int)
    ensures x >= 0.0 ==> n as real <= x < n as real + 1.0
    ensures x < 0.0 ==> n as real - 1.0 < x <= n as real
  {
    if x >= 0.0 then x.Floor else -((-x).Floor)
  }

  /** The change of the ease factor for a quality, before clamping. */
  function EaseDelta(quality: int): real {
    0.1 - (5 - quality) as real * (0.08 + (5 - quality) as real * 0.02)
  }

  /** SM2.calculate: a pass (quality >= 3) schedules 1, 6, then the old interval
      times the ease factor, and counts one more repetition; a fail resets the
      repetitions and schedules tomorrow. The ease factor moves by EaseDelta and
      never drops below 1.3. */
  function Calculate(quality: int, s: Sm2): (r: Sm2)
    ensures r.easeFactor >= MinEase
    ensures r.easeFactor == (if s.easeFactor + EaseDelta(quality) < MinEase then MinEase
                             else s.easeFactor + EaseDelta(quality))
    ensures quality >= 3 ==> r.repetitions == s.repetitions + 1
    ensures quality >= 3 && s.repetitions == 0 ==> r.interval == 1
    ensures quality >= 3 && s.repetitions == 1 ==> r.interval == 6
    ensures quality >= 3 && s.repetitions != 0 && s.repetitions != 1 ==>
              r.interval == Trunc(s.interval as real * s.easeFactor)
    ensures quality < 3 ==> r.repetitions == 0 && r.interval == 1
  {
    var (reps, interval) :=
      if quality >= 3 then
        (s.repetitions + 1,
         if s.repetitions == 0 then 1
         else if s.repetitions == 1 then 6
         else Trunc(s.interval as real * s.easeFactor))
      else (0, 1);
    var ef := s.easeFactor + EaseDelta(quality);
    Sm2(reps, if ef < MinEase then MinEase else ef, interval)
  }

  /** The states a card can be in once the program has graded it, or before. */
  predicate Schedulable(s: Sm2) {
    s.easeFactor >= MinEase && s.repetitions >= 0 && (s.repetitions >= 1 ==> s.interval >= 1)
  }

  /** Grade a card successively with the given qualities. */
  function Replay(s: Sm2, qualities: seq<int>): Sm2
    decreases |qualities|
  {
    if qualities == [] then s else Replay(Calculate(qualities[0], s), qualities[1..])
  }

  lemma ProductAtLeast(x: real, y: real)
    requires x >= 1.0 && y >= MinEase
    ensures x * y >= MinEase && x * y >= x
  {
    assert x * y - x == x * (y - 1.0);
    assert x * y - MinEase == (x - 1.0) * y + (y - MinEase);
  }

  /** One grade keeps a schedulable card schedulable and always schedules it at
      least one day ahead. */
  lemma GradeKeepsSchedulable(quality: int, s: Sm2)
    requires Schedulable(s)
    ensures Schedulable(Calculate(quality, s)) && Calculate(quality, s).interval >= 1
  {
    if quality >= 3 && s.repetitions >= 2 {
      ProductAtLeast(s.interval as real, s.easeFactor);
    }
  }

  /** While a card keeps passing, its interval never shrinks after the second review. */
  lemma PassNeverShrinks(quality: int, s: Sm2)
    requires Schedulable(s) && quality >= 3 && s.repetitions >= 2
    ensures Calculate(quality, s).interval >= s.interval
  {
    var x := s.interval as real * s.easeFactor;
    ProductAtLeast(s.interval as real, s.easeFactor);
    var n := Trunc(x);
    assert Calculate(quality, s).interval == n;
    assert (s.interval as real) < (n + 1) as real;
  }

  /** Whatever the grades, a new card stays schedulable, and after at least one
      grade its next review is at least a day away. */
  lemma {:induction false} ReplayFromNewCard(qualities: seq<int>, s: Sm2)
    requires Schedulable(s)
    ensures Schedulable(Replay(s, qualities))
    ensures qualities != [] ==> Replay(s, qualities).interval >= 1
    decreases |qualities|
  {
    if qualities != [] {
      GradeKeepsSchedulable(qualities[0], s);
      ReplayFromNewCard(qualities[1..], Calculate(qualities[0], s));
    }
  }

  /** Three "Good" ratings (quality 4) on a new card schedule 1, 6 and 15 days
      and leave the ease factor at 2.5. */
  lemma GoodThreeTimes()
    ensures Calculate(4, NewCard).interval == 1
    ensures Calculate(4, Calculate(4, NewCard)).interval == 6
    ensures Calculate(4, Calculate(4, Calculate(4, NewCard))) == Sm2(3, 2.5, 15)
  {
    assert EaseDelta(4) == 0.0;
    assert Calculate(4, Calculate(4, NewCard)) == Sm2(2, 2.5, 6);
    assert (6 as real * 2.5).Floor == 15;
  }

  // ---------------------------------------------------------------------
  // Progress

  /** One entry of the progress file. */
  datatype Entry = Entry(repetitions: int, easeFactor: real, interval: int, nextReview: int, lastReview: int)

  /** What reading the progress file gave. */
  datatype Stored = Missing | Unreadable | Parsed(entries: map<string, Entry>)

  /** _load_progress: a missing or unreadable file is an empty progress map. */
  function LoadProgress(stored: Stored): (m: map<string, Entry>)
    ensures stored.Parsed? ==> m == stored.entries
    ensures !stored.Parsed? ==> m == map[]
  {
    if stored.Parsed? then stored.entries else map[]
  }

  function StateOf(e: Entry): Sm2 {
    Sm2(e.repetitions, e.easeFactor, e.interval)
  }

  /** The entry _update_card writes for a card graded `quality` today, given
      what the progress map held for it. */
  function Graded(prior: Option<Entry>, quality: int, today: int): (e: Entry)
    ensures StateOf(e) == Calculate(quality, if prior.Some? then StateOf(prior.value) else NewCard)
    ensures e.nextReview == today + e.interval && e.lastReview == today
    ensures e.easeFactor >= MinEase
  {
    var s := Calculate(quality, if prior.Some? then StateOf(prior.value) else NewCard);
    Entry(s.repetitions, s.easeFactor, s.interval, today + s.interval, today)
  }

  /** A graded card is due again no earlier than tomorrow, whatever it held before,
      as long as what it held was a state the program writes. */
  lemma GradedNotDueToday(prior: Option<Entry>, quality: int, today: int)
    requires prior.Some? ==> Schedulable(StateOf(prior.value))
    ensures Graded(prior, quality, today).nextReview > today
  {
    GradeKeepsSchedulable(quality, if prior.Some? then StateOf(prior.value) else NewCard);
  }

  /** get_due_cards' test: never graded, or next review on or before today. */
  predicate IsDue(progress: map<string, Entry>, today: int, id: string)
    ensures id !in progress ==> IsDue(progress, today, id)
    ensures id in progress && progress[id].nextReview > today ==> !IsDue(progress, today, id)
  {
    id !in progress || progress[id].nextReview <= today
  }

  // ---------------------------------------------------------------------
  // Cards and the "Q:"/"A:" pattern

  datatype Card = Card(id: string, question: string, answer: string, sourceFile: string, context: string)

  /** A Markdown file found under the knowledge directory; `content` is None
      when reading it failed (the scan reports and skips it). */
  datatype Document = Document(path: string, stem: string, content: Option<string>)

  /** The context shown with a card: the file name's stem, underscores as
      spaces, title-cased. */
  function ContextOf(stem: string): (r: string)
    ensures |r| == |stem|
    ensures forall i :: 0 <= i < |stem| && stem[i] == '_' ==> r[i] == ' '
  {
    Title(ReplaceChar(stem, '_', ' '))
  }

  /** `^` of a MULTILINE pattern: start of text or just after a newline. */
  predicate LineStart(s: string, i: nat)
    requires i <= |s|
  {
    i == 0 || s[i - 1] == '\n'
  }

  /** The end of the run of whitespace starting at i (greedy `\s*`). */
  function SpaceEnd(s: string, i: nat): (j: nat)
    requires i <= |s|
    ensures i <= j <= |s|
    ensures forall k :: i <= k < j ==> IsSpace(s[k])
    ensures j == |s| || !IsSpace(s[j])
    decreases |s| - i
  {
    if i < |s| && IsSpace(s[i]) then SpaceEnd(s, i + 1) else i
  }

  /** The end of the line containing position i. */
  function LineEnd(s: string, i: nat): (j: nat)
    requires i <= |s|
    ensures i <= j <= |s|
    ensures forall k :: i <= k < j ==> s[k] != '\n'
    ensures j == |s| || s[j] == '\n'
    decreases |s| - i
  {
    if i < |s| && s[i] != '\n' then LineEnd(s, i + 1) else i
  }

  /** "\nA:" starts at position p. */
  predicate MarkAt(s: string, p: nat) {
    p + 3 <= |s| && s[p..p + 3] == "\nA:"
  }

  /** The first "\nA:" at or after i (what the lazy `(.*?)\nA:` finds). */
  function FindMark(s: string, i: nat): (r: Option<nat>)
    requires i <= |s|
    ensures r.Some? ==> i <= r.value && MarkAt(s, r.value)
    ensures r.Some? ==> forall p :: i <= p < r.value ==> !MarkAt(s, p)
    ensures r.None? ==> forall p :: i <= p ==> !MarkAt(s, p)
    decreases |s| - i
  {
    if i + 3 > |s| then None else if MarkAt(s, i) then Some(i) else FindMark(s, i + 1)
  }

  /** One match of `Q:\s*(.*?)\nA:\s*(.*?)(?=\n\n|\nQ:|$)`: the two groups and
      where the match ends. */
  datatype QaMatch = QaMatch(question: string, answer: string, end: nat)

  /** Where the question group ends ("\nA:" follows it), if the pattern matches
      at i. The greedy `\s*` first takes the whole whitespace run; only when no
      "\nA:" follows that run does it give back the run's final newline, which
      leaves an empty question. */
  function MarkFor(s: string, i: nat): (p: Option<nat>)
    requires i + 2 <= |s|
    ensures p.Some? ==> MarkAt(s, p.value) && i + 2 <= p.value + 1
    ensures p.Some? ==> p.value + 1 == SpaceEnd(s, i + 2)
                        || (SpaceEnd(s, i + 2) <= p.value
                            && forall x :: SpaceEnd(s, i + 2) <= x < p.value ==> !MarkAt(s, x))
  {
    var k := SpaceEnd(s, i + 2);
    match FindMark(s, k)
    case Some(p) => Some(p)
    case None => if k > i + 2 && MarkAt(s, k - 1) then Some(k - 1) else None
  }

  /** The pattern (DOTALL, MULTILINE) tried at position i. The answer is the
      first non-blank text after "A:" up to the end of its line. */
  function MatchAt(s: string, i: nat): (m: Option<QaMatch>)
    requires i <= |s|
    ensures m.Some? ==> i + 2 <= |s| && s[i..i + 2] == "Q:"
    ensures m.Some? ==> i < m.value.end <= |s|
    ensures m.Some? ==> forall c :: c in m.value.answer ==> c != '\n'
  {
    if !(i + 2 <= |s| && s[i..i + 2] == "Q:") then None
    else match MarkFor(s, i)
      case None => None
      case Some(p) =>
        var k := SpaceEnd(s, i + 2);
        var aStart := SpaceEnd(s, p + 3);
        var aEnd := LineEnd(s, aStart);
        Some(QaMatch(s[if p < k then p else k..p], s[aStart..aEnd], aEnd))
  }

  /** No "\nA:" inside a text. */
  predicate NoMark(q: string) {
    forall j :: 0 <= j <= |q| - 3 ==> !MarkAt(q, j)
  }

  /** The question of a match never contains "\nA:" (it stops at the first one),
      and its answer never starts with a blank. */
  lemma MatchShape(s: string, i: nat)
    requires i <= |s| && MatchAt(s, i).Some?
    ensures NoMark(MatchAt(s, i).value.question)
    ensures MatchAt(s, i).value.answer == [] || !IsSpace(MatchAt(s, i).value.answer[0])
  {
    var p := MarkFor(s, i).value;
    var k := SpaceEnd(s, i + 2);
    var qStart := if p < k then p else k;
    var q := s[qStart..p];
    assert q == MatchAt(s, i).value.question;
    if k <= p {
      assert p + 1 != k;
      assert forall x :: k <= x < p ==> !MarkAt(s, x);
      forall j | 0 <= j <= |q| - 3 ensures !MarkAt(q, j) {
        NoMarkInSlice(s, k, p, j);
      }
    }
  }

  /** A slice has a mark only where the whole text has one. */
  lemma NoMarkInSlice(s: string, a: nat, b: nat, j: nat)
    requires a <= b <= |s| && j + 3 <= b - a && !MarkAt(s, a + j)
    ensures !MarkAt(s[a..b], j)
  {
    var w := s[a..b][j..j + 3];
    assert |w| == 3 && w[0] == s[a + j] && w[1] == s[a + j + 1] && w[2] == s[a + j + 2];
    assert w == s[a + j..a + j + 3];
  }

  /** re.findall of the pattern from position i: non-overlapping matches,
      each starting at a line start, scanning resumes where a match ends. */
  function Matches(s: string, i: nat): (r: seq<QaMatch>)
    requires i <= |s|
    ensures forall k :: 0 <= k < |r| ==> forall c :: c in r[k].answer ==> c != '\n'
    decreases |s| - i
  {
    if i >= |s| then []
    else if LineStart(s, i) && MatchAt(s, i).Some? then
      var m := MatchAt(s, i).value;
      [m] + Matches(s, m.end)
    else Matches(s, i + 1)
  }

  /** The cards of one readable file, questions and answers stripped. */
  function CardsOf(doc: Document, idOf: (string, string) -> string): (cs: seq<Card>)
    requires doc.content.Some?
    ensures |cs| == |Matches(doc.content.value, 0)|
    ensures forall k :: 0 <= k < |cs| ==>
              var m := Matches(doc.content.value, 0)[k];
              cs[k] == Card(idOf(doc.path, Strip(m.question)), Strip(m.question), Strip(m.answer),
                            doc.path, ContextOf(doc.stem))
  {
    var ms := Matches(doc.content.value, 0);
    seq(|ms|, k requires 0 <= k < |ms| =>
      Card(idOf(doc.path, Strip(ms[k].question)), Strip(ms[k].question), Strip(ms[k].answer),
           doc.path, ContextOf(doc.stem)))
  }

  /** The cards of all files, in file order; unreadable files contribute none. */
  function AllCards(docs: seq<Document>, idOf: (string, string) -> string): seq<Card> {
    if docs == [] then []
    else AllCards(docs[..|docs| - 1], idOf)
         + (var d := docs[|docs| - 1]; if d.content.Some? then CardsOf(d, idOf) else [])
  }

  /** Every scanned card's answer is a single line with no surrounding blanks, and
      its question is stripped. */
  lemma {:induction false} ScannedCardsAreClean(docs: seq<Document>, idOf: (string, string) -> string)
    ensures forall c :: c in AllCards(docs, idOf) ==>
              (forall ch :: ch in c.answer ==> ch != '\n')
              && c.question == Strip(c.question) && c.answer == Strip(c.answer)
  {
    if docs != [] {
      ScannedCardsAreClean(docs[..|docs| - 1], idOf);
      var d := docs[|docs| - 1];
      if d.content.Some? {
        var ms := Matches(d.content.value, 0);
        forall c | c in CardsOf(d, idOf)
          ensures (forall ch :: ch in c.answer ==> ch != '\n')
                  && c.question == Strip(c.question) && c.answer == Strip(c.answer)
        {
          var k :| 0 <= k < |CardsOf(d, idOf)| && CardsOf(d, idOf)[k] == c;
          StripNoNewline(ms[k].answer);
          StripIdempotent(ms[k].question);
          StripIdempotent(ms[k].answer);
        }
      }
    }
  }

  lemma StripIdempotent(s: string)
    ensures Strip(Strip(s)) == Strip(s)
  {
  }

  lemma {:induction false} StripNoNewline(s: string)
    requires forall c :: c in s ==> c != '\n'
    ensures forall c :: c in Strip(s) ==> c != '\n'
  {
    StripKeepsMiddle(s);
    var r := Strip(s);
    var i := |s| - |LStrip(s)|;
    forall c | c in r ensures c != '\n' {
      var k :| 0 <= k < |r| && r[k] == c;
      assert c == s[i + k] && s[i + k] in s;
    }
  }

  /** The cards that are due, in scan order. */
  function DueCards(cards: seq<Card>, progress: map<string, Entry>, today: int): (r: seq<Card>)
    ensures forall c :: c in r <==> c in cards && IsDue(progress, today, c.id)
  {
    if cards == [] then []
    else
      var init := DueCards(cards[..|cards| - 1], progress, today);
      var last := cards[|cards| - 1];
      assert cards == cards[..|cards| - 1] + [last];
      init + (if IsDue(progress, today, last.id) then [last] else [])
  }

  // ---------------------------------------------------------------------
  // Review session

  /** The rating keys 1-4 mapped to SM-2 qualities: 1 (Again) fails, 2, 3 and 4
      (Hard, Good, Easy) pass; any other answer is asked again. */
  function QualityOfChoice(choice: string): (q: Option<int>)
    ensures q.Some? <==> |choice| == 1 && '1' <= choice[0] <= '4'
    ensures q.Some? ==> q.value in {0, 3, 4, 5}
    ensures q == Some(0) <==> choice == "1"
    ensures choice == "4" ==> q == Some(5)
  {
    if |choice| != 1 then None
    else match choice[0]
      case '1' => Some(0)
      case '2' => Some(3)
      case '3' => Some(4)
      case '4' => Some(5)
      case _ => None
  }

  /** The rating a typed line gives, surrounding blanks ignored. */
  function Rating(line: string): (r: Option<int>)
    ensures r.Some? <==> |Strip(line)| == 1 && '1' <= Strip(line)[0] <= '4'
    ensures r.Some? ==> r.value in {0, 3, 4, 5}
  {
    QualityOfChoice(Strip(line))
  }

  /** The rating of every typed line. */
  function Ratings(answers: seq<string>): (r: seq<Option<int>>)
    ensures |r| == |answers|
  {
    seq(|answers|, j requires 0 <= j < |answers| => Rating(answers[j]))
  }

  /** Reading lines from position pos: the first valid rating and the position
      after it, or None when the input runs out first (the user interrupts the
      session). */
  function FirstRating(ratings: seq<Option<int>>, pos: nat): (r: Option<(int, nat)>)
    ensures r.Some? ==> pos < r.value.1 <= |ratings| && ratings[r.value.1 - 1] == Some(r.value.0)
    ensures r.Some? ==> forall j :: pos <= j < r.value.1 - 1 ==> ratings[j].None?
    ensures r.None? ==> forall j :: pos <= j < |ratings| ==> ratings[j].None?
    decreases |ratings| - pos
  {
    if pos >= |ratings| then None
    else match ratings[pos]
      case Some(q) => Some((q, pos + 1))
      case None => FirstRating(ratings, pos + 1)
  }

  /** The grades a session gives: cards from index i, typed lines from
      position pos. For each card the "Press [Enter]" prompt consumes one
      line, whatever it says, then the card is graded with the next valid
      rating; the session stops when the answers run out at either prompt. */
  function SessionFrom(cards: seq<Card>, i: nat, ratings: seq<Option<int>>, pos: nat): (gs: seq<(string, int)>)
    ensures i <= |cards| ==> |gs| <= |cards| - i
    decreases |cards| - i
  {
    if i >= |cards| || pos >= |ratings| then []
    else match FirstRating(ratings, pos + 1)
      case None => []
      case Some((q, next)) => [(cards[i].id, q)] + SessionFrom(cards, i + 1, ratings, next)
  }

  /** The line typed at the reveal prompt is not a rating: with one due card
      and the lines "4" then "1", the card is graded 0 (Again), not 5. */
  lemma RevealLineIsSkipped(c: Card)
    ensures SessionFrom([c], 0, Ratings(["4", "1"]), 0) == [(c.id, 0)]
  {
    var ratings := Ratings(["4", "1"]);
    assert Strip("1") == "1";
    assert ratings[1] == Some(0);
    assert FirstRating(ratings, 1) == Some((0, 2));
    assert SessionFrom([c], 1, ratings, 2) == [];
  }

  /** A session grades a prefix of the due cards, in their order, each with a
      quality of the rating scale. */
  lemma {:induction false} SessionGradesPrefix(cards: seq<Card>, i: nat, ratings: seq<Option<int>>, pos: nat)
    requires i <= |cards|
    requires forall j :: 0 <= j < |ratings| && ratings[j].Some? ==> ratings[j].value in {0, 3, 4, 5}
    ensures var gs := SessionFrom(cards, i, ratings, pos);
            forall k :: 0 <= k < |gs| ==> gs[k].0 == cards[i + k].id && gs[k].1 in {0, 3, 4, 5}
    decreases |cards| - i
  {
    if i < |cards| && pos < |ratings| {
      match FirstRating(ratings, pos + 1)
      case None =>
      case Some((q, next)) =>
        SessionGradesPrefix(cards, i + 1, ratings, next);
        var gs := SessionFrom(cards, i, ratings, pos);
        forall k | 0 < k < |gs| ensures gs[k].0 == cards[i + k].id && gs[k].1 in {0, 3, 4, 5} {
          assert gs[k] == SessionFrom(cards, i + 1, ratings, next)[k - 1];
        }
    }
  }

  /** Every typed line rates on the scale of the source: 0, 3, 4 or 5. */
  lemma RatingsOnScale(answers: seq<string>)
    ensures forall j :: 0 <= j < |answers| && Ratings(answers)[j].Some? ==> Ratings(answers)[j].value in {0, 3, 4, 5}
  {
  }

  /** The progress map after the given grades, applied in order. */
  function ApplyGrades(progress: map<string, Entry>, grades: seq<(string, int)>, today: int): map<string, Entry>
  {
    if grades == [] then progress
    else
      var before := ApplyGrades(progress, grades[..|grades| - 1], today);
      var g := grades[|grades| - 1];
      before[g.0 := Graded(if g.0 in before then Some(before[g.0]) else None, g.1, today)]
  }

  /** A session never touches the progress of a card it did not grade. */
  lemma {:induction false} UngradedUnchanged(progress: map<string, Entry>, grades: seq<(string, int)>,
                                             today: int, id: string)
    requires forall k :: 0 <= k < |grades| ==> grades[k].0 != id
    ensures id in ApplyGrades(progress, grades, today) <==> id in progress
    ensures id in progress ==> ApplyGrades(progress, grades, today)[id] == progress[id]
  {
    if grades != [] {
      UngradedUnchanged(progress, grades[..|grades| - 1], today, id);
    }
  }

  /** After a session every graded card has a schedulable state and is not due
      again today, provided the progress it started from was schedulable. */
  lemma {:induction false} GradedCardsLeaveToday(progress: map<string, Entry>, grades: seq<(string, int)>, today: int)
    requires forall id :: id in progress ==> Schedulable(StateOf(progress[id]))
    ensures forall id :: id in ApplyGrades(progress, grades, today) ==>
              Schedulable(StateOf(ApplyGrades(progress, grades, today)[id]))
    ensures forall k :: 0 <= k < |grades| ==> !IsDue(ApplyGrades(progress, grades, today), today, grades[k].0)
  {
    if grades != [] {
      var init := grades[..|grades| - 1];
      GradedCardsLeaveToday(progress, init, today);
      var before := ApplyGrades(progress, init, today);
      var g := grades[|grades| - 1];
      var prior := if g.0 in before then Some(before[g.0]) else None;
      GradedNotDueToday(prior, g.1, today);
      GradeKeepsSchedulable(g.1, if prior.Some? then StateOf(prior.value) else NewCard);
      forall k | 0 <= k < |grades| - 1
        ensures !IsDue(ApplyGrades(progress, grades, today), today, grades[k].0)
      {
        assert grades[k].0 == init[k].0;
        if grades[k].0 != g.0 {
          assert !IsDue(before, today, init[k].0);
        }
      }
    }
  }

  /** The card manager: the progress map and the cards of the last scan. */
  class CardManager {
    var progress: map<string, Entry>
    var cards: seq<Card>

    constructor (stored: Stored)
      ensures progress == LoadProgress(stored) && cards == []
    {
      progress := LoadProgress(stored);
      cards := [];
    }

    /** scan_cards: rebuild the card list from the files, in file order. */
    method ScanCards(docs: seq<Document>, idOf: (string, string) -> string)
      modifies this`cards
      ensures cards == AllCards(docs, idOf)
    {
      cards := [];
      for i := 0 to |docs|
        invariant cards == AllCards(docs[..i], idOf)
      {
        assert docs[..i + 1][..i] == docs[..i];
        if docs[i].content.Some? {
          cards := cards + CardsOf(docs[i], idOf);
        }
      }
      assert docs[..|docs|] == docs;
    }

    /** get_due_cards: the due cards in some order (the source shuffles them). */
    method GetDueCards(today: int) returns (due: seq<Card>)
      ensures multiset(due) == multiset(DueCards(cards, progress, today))
      ensures forall c :: c in due <==> c in cards && IsDue(progress, today, c.id)
    {
      due := [];
      for i := 0 to |cards|
        invariant due == DueCards(cards[..i], progress, today)
      {
        assert cards[..i + 1][..i] == cards[..i];
        if IsDue(progress, today, cards[i].id) {
          due := due + [cards[i]];
        }
      }
      assert cards[..|cards|] == cards;
    }

    /** _update_card: write the graded entry for one card. */
    method UpdateCard(id: string, quality: int, today: int)
      modifies this`progress
      ensures progress == old(progress)[id := Graded(if id in old(progress) then Some(old(progress)[id]) else None,
                                                     quality, today)]
    {
      var prior := if id in progress then Some(progress[id]) else None;
      progress := progress[id := Graded(prior, quality, today)];
    }

    /** review_loop: scan, pick the due cards, then show them in order: a
        line is read at the reveal prompt, then the card gets the next valid
        rating; running out of input ends the session. */
    method ReviewLoop(docs: seq<Document>, idOf: (string, string) -> string, today: int, answers: seq<string>)
      returns (due: seq<Card>)
      modifies this
      ensures cards == AllCards(docs, idOf)
      ensures multiset(due) == multiset(DueCards(cards, old(progress), today))
      ensures progress == ApplyGrades(old(progress), SessionFrom(due, 0, Ratings(answers), 0), today)
    {
      ScanCards(docs, idOf);
      due := GetDueCards(today);
      var ratings := Ratings(answers);
      GradeSession(due, ratings, today);
    }

    /** The grading part of review_loop: for each card in turn one line is
        read at the reveal prompt, then the card gets the next valid rating;
        when the input ends the session stops where it is. */
    method GradeSession(due: seq<Card>, ratings: seq<Option<int>>, today: int)
      modifies this`progress
      ensures progress == ApplyGrades(old(progress), SessionFrom(due, 0, ratings, 0), today)
    {
      ghost var done: seq<(string, int)> := [];
      var pos: nat := 0;
      for i := 0 to |due|
        invariant pos <= |ratings|
        invariant SessionFrom(due, 0, ratings, 0) == done + SessionFrom(due, i, ratings, pos)
        invariant progress == ApplyGrades(old(progress), done, today)
      {
        if pos == |ratings| {
          assert SessionFrom(due, i, ratings, pos) == [];
          assert done + [] == done;
          return;
        }
        var revealed := pos + 1;
        var q, next := ReadRating(ratings, revealed);
        if q.None? {
          assert SessionFrom(due, i, ratings, pos) == [];
          assert done + [] == done;
          return;
        }
        assert SessionFrom(due, i, ratings, pos) == [(due[i].id, q.value)] + SessionFrom(due, i + 1, ratings, next);
        UpdateCard(due[i].id, q.value, today);
        assert (done + [(due[i].id, q.value)])[..|done|] == done;
        done := done + [(due[i].id, q.value)];
        pos := next;
      }
      assert done + [] == done;
    }
  }

  /** The rating prompt of review_loop, over the ratings of the typed lines:
      read from position pos until a line is a valid rating; None when the
      input ends first. */
  method ReadRating(ratings: seq<Option<int>>, pos: nat) returns (q: Option<int>, next: nat)
    requires pos <= |ratings|
    ensures q.Some? <==> FirstRating(ratings, pos).Some?
    ensures q.Some? ==> FirstRating(ratings, pos) == Some((q.value, next))
  {
    q, next := None, pos;
    while q.None?
      invariant pos <= next <= |ratings|
      invariant q.None? ==> FirstRating(ratings, pos) == FirstRating(ratings, next)
      invariant q.Some? ==> FirstRating(ratings, pos) == Some((q.value, next))
      decreases |ratings| - next, if q.None? then 1 else 0
    {
      if next == |ratings| {
        return;
      }
      q := ratings[next];
      next := next + 1;
    }
  }
}
