// notion-kit/notion_wrap.py: the thin Notion client of the Cortex knowledge
// base. Modelled here: the rate-limit retry around every API call, the
// property dictionaries add_task and update_task send, the reading of a
// property value from a page, and the text of a page body. The API calls
// themselves are parameters (the outcome of each attempt).

module NotionWrap {
  import opened Common
  import opened Retry
  import opened NotionPages
  import Anki

  // ---------------------------------------------------------------------
  // Rate-limit retry

  /** An exception of a wrapped call: an APIResponseError with its code, or
      anything else (which the wrapper does not catch). */
  datatype ApiError = ResponseError(code: string) | OtherError

  predicate RateLimited(e: ApiError) {
    e.ResponseError? && e.code == "rate_limited"
  }

  const DefaultMaxRetries: nat := 3

  /** The sleep after attempt number a: 2 ** a seconds. */
  function Backoff(a: nat): int {
    Pow2(a)
  }

  /** _retry_on_rate_limit(func, max_retries=n). */
  function RetryOnRateLimit<T>(call: nat -> Attempt<T, ApiError>, maxRetries: nat): (r: Run<T, ApiError>)
    ensures forall a :: 0 <= a < r.calls - 1 ==> call(a).Failed? && RateLimited(call(a).error)
  {
    RunShape(call, maxRetries, RateLimited, Backoff, 0);
    RunFrom(call, maxRetries, RateLimited, Backoff, 0)
  }

  /** At most max_retries calls, a sleep of 2 ** i seconds between call i
      and call i + 1, and with at least one attempt the loop always ends in
      a value or a raised error. */
  lemma RateLimitBounds<T>(call: nat -> Attempt<T, ApiError>, maxRetries: nat)
    ensures var r := RetryOnRateLimit(call, maxRetries);
      && r.calls <= maxRetries
      && |r.waits| == (if r.calls == 0 then 0 else r.calls - 1)
      && (forall i :: 0 <= i < |r.waits| ==> r.waits[i] == Pow2(i))
      && (r.outcome.FellThrough? <==> maxRetries == 0)
  {
    RunShape(call, maxRetries, RateLimited, Backoff, 0);
    FallsThroughOnlyWithoutAttempts(call, maxRetries, RateLimited, Backoff, 0);
  }

  /** Any error other than rate_limited is raised after the one call. */
  lemma OtherErrorRaisedAtOnce<T>(call: nat -> Attempt<T, ApiError>, maxRetries: nat)
    requires maxRetries >= 1 && call(0).Failed? && !RateLimited(call(0).error)
    ensures RetryOnRateLimit(call, maxRetries) == Run(Raised(call(0).error), 1, [])
  {
  }

  /** When every attempt is rate limited, the wrapper makes all its calls,
      sleeps 1, 2, 4, ... seconds between them and re-raises the error of
      the last one. */
  lemma {:induction false} AllRateLimited<T>(call: nat -> Attempt<T, ApiError>, maxRetries: nat, attempt: nat)
    requires attempt < maxRetries
    requires forall a :: attempt <= a < maxRetries ==> call(a).Failed? && RateLimited(call(a).error)
    ensures RunFrom(call, maxRetries, RateLimited, Backoff, attempt)
            == Run(Raised(call(maxRetries - 1).error), maxRetries - attempt,
                   seq(maxRetries - 1 - attempt, i requires 0 <= i => Pow2(attempt + i)))
    decreases maxRetries - attempt
  {
    if attempt < maxRetries - 1 {
      AllRateLimited(call, maxRetries, attempt + 1);
      var tail := seq(maxRetries - 1 - (attempt + 1), i requires 0 <= i => Pow2(attempt + 1 + i));
      assert [Pow2(attempt)] + tail == seq(maxRetries - 1 - attempt, i requires 0 <= i => Pow2(attempt + i));
    }
  }

  // ---------------------------------------------------------------------
  // Property dictionaries

  /** A property value as the wrapper writes it. */
  datatype PropInput =
    | TitleText(content: string)
    | SelectName(name: string)
    | MultiSelectNames(names: seq<string>)
    | RichTextContent(content: string)
    | CheckboxFlag(checked: bool)
    | DateStart(start: string)

  /** The properties the wrapper writes; Label gives the name each one has
      in the request. */
  datatype PropName = NameProp | TypeProp | StatusProp | TagsProp | PriorityProp
                    | SourceProp | WeekProp | AutoCreatedProp | LastReviewedProp

  function Label(k: PropName): string {
    match k
    case NameProp => "Name"
    case TypeProp => "Type"
    case StatusProp => "Status"
    case TagsProp => "Tags"
    case PriorityProp => "Priority"
    case SourceProp => "Source"
    case WeekProp => "Week"
    case AutoCreatedProp => "Auto Created"
    case LastReviewedProp => "Last Reviewed"
  }

  /** Different properties go out under different names, so a map keyed by
      PropName is the request's map keyed by Label. */
  lemma LabelInjective(j: PropName, k: PropName)
    ensures Label(j) == Label(k) <==> j == k
  {
    if j != k {
      var a, b := Label(j), Label(k);
      assert a[0] != b[0] || a[1] != b[1] || |a| != |b|;
    }
  }

  /** The page-creation request: parent data source, properties, and the
      paragraphs of the body (no "children" key when there are none). */
  datatype PageRequest = PageRequest(parent: string, properties: map<PropName, PropInput>, children: Option<seq<string>>)

  /** Python truthiness of an optional list. */
  predicate NonEmpty(tags: Option<seq<string>>) {
    tags.Some? && tags.value != []
  }

  /** dict.get on the properties: the entry for k, or None. */
  function Get(props: map<PropName, PropInput>, k: PropName): Option<PropInput> {
    if k in props then Some(props[k]) else None
  }

  /** The properties add_task sends; `week` is the current date formatted
      "%Y-W%V": the calendar year with the ISO week number. Name, Week and Auto Created are always set,
      the others only when their argument is truthy. */
  method AddTaskProperties(name: string, taskType: string, status: string, tags: Option<seq<string>>,
                           priority: Option<string>, source: Option<string>, autoCreated: bool, week: string)
    returns (props: map<PropName, PropInput>)
    ensures Get(props, NameProp) == Some(TitleText(name))
    ensures Get(props, TypeProp) == if taskType != "" then Some(SelectName(taskType)) else None
    ensures Get(props, StatusProp) == if status != "" then Some(SelectName(status)) else None
    ensures Get(props, TagsProp) == if NonEmpty(tags) then Some(MultiSelectNames(tags.value)) else None
    ensures Get(props, PriorityProp) == if Truthy(priority) then Some(SelectName(priority.value)) else None
    ensures Get(props, SourceProp) == if Truthy(source) then Some(RichTextContent(source.value)) else None
    ensures Get(props, WeekProp) == Some(RichTextContent(week))
    ensures Get(props, AutoCreatedProp) == Some(CheckboxFlag(autoCreated))
    ensures Get(props, LastReviewedProp) == None
  {
    props := map[NameProp := TitleText(name)];
    props := if taskType != "" then props[TypeProp := SelectName(taskType)] else props;
    props := if status != "" then props[StatusProp := SelectName(status)] else props;
    props := if NonEmpty(tags) then props[TagsProp := MultiSelectNames(tags.value)] else props;
    props := if Truthy(priority) then props[PriorityProp := SelectName(priority.value)] else props;
    props := if Truthy(source) then props[SourceProp := RichTextContent(source.value)] else props;
    props := props[WeekProp := RichTextContent(week)];
    props := props[AutoCreatedProp := CheckboxFlag(autoCreated)];
  }

  /** The request add_task sends: the parent data source, the properties
      above, and the note as the single paragraph of the body when it is
      non-empty (no children at all otherwise). */
  method AddTaskRequest(dataSource: string, name: string, taskType: string, status: string,
                        tags: Option<seq<string>>, priority: Option<string>, source: Option<string>,
                        note: Option<string>, autoCreated: bool, week: string)
    returns (request: PageRequest)
    ensures request.parent == dataSource
    ensures Get(request.properties, NameProp) == Some(TitleText(name))
    ensures Get(request.properties, TypeProp) == if taskType != "" then Some(SelectName(taskType)) else None
    ensures Get(request.properties, StatusProp) == if status != "" then Some(SelectName(status)) else None
    ensures Get(request.properties, TagsProp) == if NonEmpty(tags) then Some(MultiSelectNames(tags.value)) else None
    ensures Get(request.properties, PriorityProp) == if Truthy(priority) then Some(SelectName(priority.value)) else None
    ensures Get(request.properties, SourceProp) == if Truthy(source) then Some(RichTextContent(source.value)) else None
    ensures Get(request.properties, WeekProp) == Some(RichTextContent(week))
    ensures Get(request.properties, AutoCreatedProp) == Some(CheckboxFlag(autoCreated))
    ensures Get(request.properties, LastReviewedProp) == None
    ensures request.children == (if Truthy(note) then Some([note.value]) else None)
  {
    var props := AddTaskProperties(name, taskType, status, tags, priority, source, autoCreated, week);
    var children: seq<string> := [];
    if Truthy(note) {
      children := children + [note.value];
      assert children == [note.value];
    }
    request := PageRequest(dataSource, props, if children != [] then Some(children) else None);
  }

  /** The properties update_task sends: exactly those whose argument was
      given (truthy), and Last Reviewed = `today` only when asked for. */
  method UpdateTaskProperties(status: Option<string>, tags: Option<seq<string>>, priority: Option<string>,
                              lastReviewed: bool, today: string)
    returns (props: map<PropName, PropInput>)
    ensures props.Keys == (if Truthy(status) then {StatusProp} else {})
                          + (if NonEmpty(tags) then {TagsProp} else {})
                          + (if Truthy(priority) then {PriorityProp} else {})
                          + (if lastReviewed then {LastReviewedProp} else {})
    ensures Truthy(status) ==> props[StatusProp] == SelectName(status.value)
    ensures NonEmpty(tags) ==> props[TagsProp] == MultiSelectNames(tags.value)
    ensures Truthy(priority) ==> props[PriorityProp] == SelectName(priority.value)
    ensures lastReviewed ==> props[LastReviewedProp] == DateStart(today)
  {
    props := map[];
    if Truthy(status) {
      props := props[StatusProp := SelectName(status.value)];
    }
    if NonEmpty(tags) {
      props := props[TagsProp := MultiSelectNames(tags.value)];
    }
    if Truthy(priority) {
      props := props[PriorityProp := SelectName(priority.value)];
    }
    if lastReviewed {
      props := props[LastReviewedProp := DateStart(today)];
    }
  }

  // ---------------------------------------------------------------------
  // Reading a property

  /** What extract_property_value returns. */
  datatype Value = NoValue | Str(text: string) | StrList(items: seq<string>) | Bool(flag: bool) | Num(number: int)

  const KnownTypes: set<string> :=
    {"title", "rich_text", "select", "multi_select", "date", "checkbox", "number", "created_time"}

  /** extract_property_value: dispatches on the property's declared type and
      reads the value stored under that type. */
  function ExtractPropertyValue(page: Page, name: string): (r: Value)
    ensures name !in page.properties ==> r == NoValue
    ensures name in page.properties && page.properties[name].propType in {"title", "rich_text"} ==> r.Str?
    ensures name in page.properties && page.properties[name].propType == "checkbox" ==> r.Bool?
    ensures name in page.properties && page.properties[name].propType == "multi_select" ==> r.StrList?
    ensures name in page.properties && page.properties[name].propType !in KnownTypes ==> r == NoValue
  {
    if name !in page.properties then NoValue
    else
      var p := page.properties[name];
      var v := p.value;
      if p.propType == "title" then
        (if v.TitleValue? && v.titles != [] then Str(v.titles[0]) else Str(""))
      else if p.propType == "rich_text" then
        (if v.RichTextValue? && v.texts != [] then Str(v.texts[0]) else Str(""))
      else if p.propType == "select" then
        (if v.SelectValue? && v.selected.Some? then Str(v.selected.value) else NoValue)
      else if p.propType == "multi_select" then
        StrList(if v.MultiSelectValue? then v.names else [])
      else if p.propType == "date" then
        (if v.DateValue? && v.start.Some? then Str(v.start.value) else NoValue)
      else if p.propType == "checkbox" then
        Bool(v.CheckboxValue? && v.checked)
      else if p.propType == "number" then
        (if v.NumberValue? && v.number.Some? then Num(v.number.value) else NoValue)
      else if p.propType == "created_time" then
        (if v.CreatedTimeValue? && v.created.Some? then Str(v.created.value) else NoValue)
      else NoValue
  }

  /** The value cases of a well-formed property (its value stored under its
      declared type): a title or rich text reads as its first fragment or
      "", a select as its name or None, a multi-select as its names, a date
      as its start or None, a checkbox as its flag, a number or creation
      time as its value or None. */
  lemma ExtractValueCases(page: Page, name: string)
    requires name in page.properties
    ensures var p := page.properties[name];
      && (p.propType == "title" && p.value.TitleValue? ==>
            ExtractPropertyValue(page, name) == Str(if p.value.titles == [] then "" else p.value.titles[0]))
      && (p.propType == "rich_text" && p.value.RichTextValue? ==>
            ExtractPropertyValue(page, name) == Str(if p.value.texts == [] then "" else p.value.texts[0]))
      && (p.propType == "select" && p.value.SelectValue? ==>
            ExtractPropertyValue(page, name)
            == (if p.value.selected.Some? then Str(p.value.selected.value) else NoValue))
      && (p.propType == "multi_select" && p.value.MultiSelectValue? ==>
            ExtractPropertyValue(page, name) == StrList(p.value.names))
      && (p.propType == "date" && p.value.DateValue? ==>
            ExtractPropertyValue(page, name) == (if p.value.start.Some? then Str(p.value.start.value) else NoValue))
      && (p.propType == "checkbox" && p.value.CheckboxValue? ==>
            ExtractPropertyValue(page, name) == Bool(p.value.checked))
      && (p.propType == "number" && p.value.NumberValue? ==>
            ExtractPropertyValue(page, name) == (if p.value.number.Some? then Num(p.value.number.value) else NoValue))
      && (p.propType == "created_time" && p.value.CreatedTimeValue? ==>
            ExtractPropertyValue(page, name)
            == (if p.value.created.Some? then Str(p.value.created.value) else NoValue))
  {
  }

  /** The wrapper and the Anki converter read a well-formed title alike,
      except that an empty title is "" here and None there. */
  lemma TitleAsConverterReadsIt(page: Page, name: string)
    requires name in page.properties
    requires page.properties[name].propType == "title" && page.properties[name].value.TitleValue?
    ensures ExtractPropertyValue(page, name) == Str(Anki.TextOr(Anki.ExtractProperty(Anki.Kit, page, name, Anki.TitleKind)))
    ensures Anki.ExtractProperty(Anki.Kit, page, name, Anki.TitleKind) == Anki.Absent <==>
              page.properties[name].value.titles == []
  {
  }

  // ---------------------------------------------------------------------
  // Page content

  /** The line of a paragraph block (its pieces concatenated); other blocks
      give none. */
  function ParagraphLine(b: Block): (r: Option<string>)
    ensures r.Some? <==> b.blockType == "paragraph"
  {
    if b.blockType == "paragraph" then Some(Concat(b.texts)) else None
  }

  /** The lines of a page body, one per paragraph block, in order. */
  function ParagraphLines(blocks: seq<Block>): seq<string> {
    FilterMap(blocks, ParagraphLine)
  }

  /** get_page_content: `listing` is the retried block listing, None when it
      raised an APIResponseError. */
  method GetPageContent(listing: Option<seq<Block>>) returns (text: string)
    ensures listing.None? ==> text == ""
    ensures listing.Some? ==> text == Join("\n", ParagraphLines(listing.value))
  {
    if listing.None? {
      return "";
    }
    var blocks := listing.value;
    var content: seq<string> := [];
    for i := 0 to |blocks|
      invariant content == FilterMap(blocks[..i], ParagraphLine)
    {
      assert blocks[..i + 1][..i] == blocks[..i];
      if blocks[i].blockType == "paragraph" {
        content := content + [Concat(blocks[i].texts)];
      } else {
        assert content + [] == content;
      }
    }
    assert blocks[..|blocks|] == blocks;
    text := Join("\n", content);
  }

  /** Read back line by line, the content is one line per paragraph block
      (when there is one and no piece holds a line break), and each line is
      the concatenation of that paragraph's pieces. */
  lemma ContentLines(blocks: seq<Block>)
    requires ParagraphLines(blocks) != []
    requires forall b, t :: b in blocks && t in b.texts ==> '\n' !in t
    ensures Lines(Join("\n", ParagraphLines(blocks))) == ParagraphLines(blocks)
    ensures forall l :: l in ParagraphLines(blocks) <==>
              exists i :: 0 <= i < |blocks| && blocks[i].blockType == "paragraph" && l == Concat(blocks[i].texts)
  {
    var lines := ParagraphLines(blocks);
    forall k | 0 <= k < |lines| ensures '\n' !in lines[k] {
      FilterMapMembership(blocks, ParagraphLine, lines[k]);
      var i :| 0 <= i < |blocks| && ParagraphLine(blocks[i]) == Some(lines[k]);
      ConcatMembership(blocks[i].texts, '\n');
    }
    JoinedLines(lines);
    forall l ensures l in lines <==>
        exists i :: 0 <= i < |blocks| && blocks[i].blockType == "paragraph" && l == Concat(blocks[i].texts) {
      FilterMapMembership(blocks, ParagraphLine, l);
    }
  }
}
