// The Notion -> Anki converters: scripts/sync_notion_anki.py and its
// packaged twin notion-kit/anki_sync.py. Both read Notion pages (flashcard
// pages of the "Anki Cards" database and knowledge pages of the "Cortex"
// database), turn each into a note (front, back, source, tags), group the
// notes by deck and record a batch count. The two copies differ in four
// places: the scripts copy sanitises multi-select tags, always queries the
// Anki Cards source, demands its database id at start-up and defaults the
// deck prefix to "LifeOS"; the kit copy keeps tags as they are, does not
// demand that id, queries each source only when its id is set and defaults
// the deck prefix to "NotionKit".

module Anki {
  import opened Common
  import opened NotionPages

  datatype Copy = Scripts | Kit

  /** Only the scripts copy rewrites spaces in tag names. */
  predicate Sanitizes(copy: Copy) {
    copy == Scripts
  }

  /** The deck prefix of the default configuration. */
  function DefaultPrefix(copy: Copy): string {
    if copy == Scripts then "LifeOS" else "NotionKit"
  }

  // ---------------------------------------------------------------------
  // Notion pages

  /** The kinds a caller asks _extract_property for. */
  datatype Kind = TitleKind | RichTextKind | SelectKind | MultiSelectKind | UrlKind | CheckboxKind | OtherKind

  /** What _extract_property returns: None, a string, a list of names or a flag. */
  datatype Extracted = Absent | Text(text: string) | Names(names: seq<string>) | Flag(flag: bool)

  /** Python truthiness of an extracted string. */
  predicate Present(e: Extracted) {
    e.Text? && e.text != ""
  }

  /** `value or ""`. */
  function TextOr(e: Extracted): (r: string)
    ensures Present(e) ==> r == e.text
    ensures !Present(e) ==> r == ""
  {
    if e.Text? then e.text else ""
  }

  /** `value or []`. */
  function NamesOr(e: Extracted): (r: seq<string>)
    ensures e.Names? ==> r == e.names
    ensures !e.Names? ==> r == []
  {
    if e.Names? then e.names else []
  }

  /** _sanitize_tag: Anki tags cannot hold spaces, so each becomes "_". */
  function SanitizeTag(tag: string): (r: string)
    ensures |r| == |tag|
    ensures ' ' !in r
    ensures forall i :: 0 <= i < |tag| && tag[i] != ' ' ==> r[i] == tag[i]
  {
    ReplaceChar(tag, ' ', '_')
  }

  lemma SanitizeTagIdempotent(tag: string)
    ensures SanitizeTag(SanitizeTag(tag)) == SanitizeTag(tag)
  {
    var once := SanitizeTag(tag);
    assert forall i :: 0 <= i < |once| ==> once[i] != ' ';
  }

  /** A tag without spaces is left as it is. */
  lemma SanitizeTagKeepsPlain(tag: string)
    requires ' ' !in tag
    ensures SanitizeTag(tag) == tag
  {
    assert forall i :: 0 <= i < |tag| ==> tag[i] != ' ';
  }

  function TagNames(copy: Copy, names: seq<string>): (r: seq<string>)
    ensures |r| == |names|
  {
    if Sanitizes(copy) then seq(|names|, i requires 0 <= i < |names| => SanitizeTag(names[i])) else names
  }

  /** _extract_property(page, name, kind). */
  function ExtractProperty(copy: Copy, page: Page, name: string, kind: Kind): (r: Extracted)
    ensures name !in page.properties ==> r == Absent
    ensures kind == OtherKind ==> r == Absent
    ensures kind in {TitleKind, RichTextKind, SelectKind, UrlKind} ==> r.Absent? || r.Text?
    ensures kind == MultiSelectKind && name in page.properties ==> r.Names?
    ensures kind == CheckboxKind && name in page.properties ==> r.Flag?
    ensures r.Names? && Sanitizes(copy) ==> forall t :: t in r.names ==> ' ' !in t
    ensures (name in page.properties && kind == MultiSelectKind && !Sanitizes(copy)
             && page.properties[name].value.MultiSelectValue?) ==> r == Names(page.properties[name].value.names)
  {
    if name !in page.properties then Absent
    else
      var v := page.properties[name].value;
      match kind
      case TitleKind => if v.TitleValue? && v.titles != [] then Text(v.titles[0]) else Absent
      case RichTextKind => if v.RichTextValue? && v.texts != [] then Text(v.texts[0]) else Absent
      case SelectKind => if v.SelectValue? && v.selected.Some? then Text(v.selected.value) else Absent
      case MultiSelectKind => Names(if v.MultiSelectValue? then TagNames(copy, v.names) else [])
      case UrlKind => if v.UrlValue? && v.url.Some? then Text(v.url.value) else Absent
      case CheckboxKind => Flag(v.CheckboxValue? && v.checked)
      case OtherKind => Absent
  }

  /** The cases of _extract_property as the callers rely on them: a title or
      rich text gives its first fragment and None only when there is none; a
      select gives its name and a url its value, None when unset; a checkbox
      gives its flag and a missing one reads as False; the kit copy returns tag names as
      stored and the scripts copy the sanitised names, one for one. */
  lemma ExtractPropertyCases(copy: Copy, page: Page, name: string)
    requires name in page.properties
    ensures var v := page.properties[name].value;
      (v.TitleValue? ==>
         (ExtractProperty(copy, page, name, TitleKind) == Absent <==> v.titles == [])
         && (v.titles != [] ==> ExtractProperty(copy, page, name, TitleKind) == Text(v.titles[0])))
      && (v.RichTextValue? ==>
            (ExtractProperty(copy, page, name, RichTextKind) == Absent <==> v.texts == [])
            && (v.texts != [] ==> ExtractProperty(copy, page, name, RichTextKind) == Text(v.texts[0])))
      && (v.SelectValue? ==>
            ExtractProperty(copy, page, name, SelectKind) == (if v.selected.Some? then Text(v.selected.value) else Absent))
      && (v.UrlValue? ==>
            ExtractProperty(copy, page, name, UrlKind) == (if v.url.Some? then Text(v.url.value) else Absent))
      && (v.CheckboxValue? ==> ExtractProperty(copy, page, name, CheckboxKind) == Flag(v.checked))
      && (!v.CheckboxValue? ==> ExtractProperty(copy, page, name, CheckboxKind) == Flag(false))
      && (v.MultiSelectValue? && copy == Kit ==>
            ExtractProperty(copy, page, name, MultiSelectKind) == Names(v.names))
      && (v.MultiSelectValue? && copy == Scripts ==>
            var r := ExtractProperty(copy, page, name, MultiSelectKind).names;
            |r| == |v.names| && forall i :: 0 <= i < |r| ==> r[i] == SanitizeTag(v.names[i]))
  {
  }

  /** _is_cortex_card: a Cortex page has a title "Name" and select-typed
      "Type" and "Status" properties. */
  predicate IsCortexCard(page: Page)
    ensures IsCortexCard(page) ==> {"Name", "Type", "Status"} <= page.properties.Keys
  {
    && "Name" in page.properties && page.properties["Name"].propType == "title"
    && "Type" in page.properties && page.properties["Type"].propType == "select"
    && "Status" in page.properties && page.properties["Status"].propType == "select"
  }

  // ---------------------------------------------------------------------
  // Page content

  const TextBlockTypes: set<string> :=
    {"paragraph", "bulleted_list_item", "numbered_list_item", "heading_1", "heading_2", "heading_3"}

  /** The text pieces of the blocks of a text type, in order. */
  function Pieces(blocks: seq<Block>): (r: seq<string>)
    ensures (forall b :: b in blocks ==> b.blockType !in TextBlockTypes) ==> r == []
  {
    if blocks == [] then []
    else
      var b := blocks[|blocks| - 1];
      Pieces(blocks[..|blocks| - 1]) + (if b.blockType in TextBlockTypes then b.texts else [])
  }

  /** _get_page_content: the pieces joined by newlines and stripped; a
      failed listing (None) reads as an empty body. */
  function PageContent(listing: Option<seq<Block>>): (r: string)
    ensures r == [] || (!IsSpace(r[0]) && !IsSpace(r[|r| - 1]))
    ensures listing.None? ==> r == ""
    ensures listing.Some? && (forall b :: b in listing.value ==> b.blockType !in TextBlockTypes) ==> r == ""
  {
    if listing.None? then "" else Strip(Join("\n", Pieces(listing.value)))
  }

  // ---------------------------------------------------------------------
  // Conversion to note fields

  /** The fields a page contributes; an empty string stands for a missing
      (falsy) value. */
  datatype Fields = Fields(front: string, back: string, deck: string, source: string, tags: seq<string>)

  const TranslationPrefix: string := "翻译："
  const WordPrefix: string := "单词："
  const PhrasePrefix: string := "短语："
  const NoContent: string := "（无内容）"
  const CortexTag: string := "Cortex"

  /** `name.replace(prefix, "").strip()`. */
  function DropPrefix(name: string, prefix: string): (r: string)
    requires |prefix| > 0
    ensures |r| <= |name|
  {
    ReplaceAllShrinks(name, prefix);
    Strip(ReplaceAll(name, prefix, ""))
  }

  lemma {:induction false} ReplaceAllShrinks(s: string, pat: string)
    requires |pat| > 0
    ensures |ReplaceAll(s, pat, "")| <= |s|
    decreases |s|
  {
    if s == [] {
    } else if pat <= s {
      ReplaceAllShrinks(s[|pat|..], pat);
    } else {
      ReplaceAllShrinks(s[1..], pat);
    }
  }

  /** Removing a pattern that does not occur changes nothing. */
  lemma {:induction false} ReplaceAllAbsent(s: string, pat: string)
    requires |pat| > 0 && !Contains(s, pat)
    ensures ReplaceAll(s, pat, "") == s
    decreases |s|
  {
    if s != [] {
      ReplaceAllAbsent(s[1..], pat);
    }
  }

  /** The "Cortex" tag appended when absent. */
  function WithCortexTag(tags: seq<string>): (r: seq<string>)
    ensures CortexTag in r
    ensures tags <= r
    ensures CortexTag in tags ==> r == tags
    ensures CortexTag !in tags ==> |r| == |tags| + 1
  {
    if CortexTag in tags then tags else tags + [CortexTag]
  }

  lemma WithCortexTagIdempotent(tags: seq<string>)
    ensures WithCortexTag(WithCortexTag(tags)) == WithCortexTag(tags)
  {
  }

  /** The deck a Cortex title selects and the front it leaves. */
  function CortexFront(name: string): (r: (string, string))
    ensures r.1 in {"Translation", "Vocabulary", "Phrases"}
    ensures |r.0| <= |name|
  {
    if TranslationPrefix <= name then (DropPrefix(name, TranslationPrefix), "Translation")
    else if WordPrefix <= name then (DropPrefix(name, WordPrefix), "Vocabulary")
    else if PhrasePrefix <= name then (DropPrefix(name, PhrasePrefix), "Phrases")
    else (name, "Vocabulary")
  }

  /** _convert_cortex_to_anki: None for a page without a name; `listing` is
      the block listing of the page body. */
  function ConvertCortex(copy: Copy, page: Page, listing: Option<seq<Block>>): (r: Option<Fields>)
    ensures r.None? <==> !Present(ExtractProperty(copy, page, "Name", TitleKind))
    ensures r.Some? ==> r.value.back != "" && r.value.deck in {"Translation", "Vocabulary", "Phrases"}
    ensures r.Some? ==> CortexTag in r.value.tags
  {
    var name := ExtractProperty(copy, page, "Name", TitleKind);
    var source := TextOr(ExtractProperty(copy, page, "Source", RichTextKind));
    var tags := NamesOr(ExtractProperty(copy, page, "Tags", MultiSelectKind));
    if !Present(name) then None
    else
      var content := PageContent(listing);
      var back := if content == "" then NoContent else content;
      var (front, deck) := CortexFront(name.text);
      Some(Fields(front, back, deck, source, WithCortexTag(tags)))
  }

  /** How a Cortex title maps to a deck: each prefix selects its deck and
      is removed (with the surrounding whitespace) from the front; a title
      with none of the prefixes goes to Vocabulary unchanged. The body of
      the page, or the placeholder when it is empty, becomes the back. */
  lemma CortexPrefixes(rest: string)
    ensures !Contains(rest, TranslationPrefix) ==> CortexFront(TranslationPrefix + rest) == (Strip(rest), "Translation")
    ensures !Contains(rest, WordPrefix) ==> CortexFront(WordPrefix + rest) == (Strip(rest), "Vocabulary")
    ensures !Contains(rest, PhrasePrefix) ==> CortexFront(PhrasePrefix + rest) == (Strip(rest), "Phrases")
  {
    if !Contains(rest, TranslationPrefix) {
      PrefixRemoved(TranslationPrefix, rest);
    }
    if !Contains(rest, WordPrefix) {
      assert (WordPrefix + rest)[0] != TranslationPrefix[0];
      PrefixRemoved(WordPrefix, rest);
    }
    if !Contains(rest, PhrasePrefix) {
      assert (PhrasePrefix + rest)[0] != TranslationPrefix[0];
      assert (PhrasePrefix + rest)[0] != WordPrefix[0];
      PrefixRemoved(PhrasePrefix, rest);
    }
  }

  lemma PrefixRemoved(prefix: string, rest: string)
    requires |prefix| > 0 && !Contains(rest, prefix)
    ensures DropPrefix(prefix + rest, prefix) == Strip(rest)
  {
    var s := prefix + rest;
    assert prefix <= s;
    assert s[|prefix|..] == rest;
    ReplaceAllAbsent(rest, prefix);
    assert ReplaceAll(s, prefix, "") == rest;
  }

  lemma CortexUnprefixed(name: string)
    requires !(TranslationPrefix <= name) && !(WordPrefix <= name) && !(PhrasePrefix <= name)
    ensures CortexFront(name) == (name, "Vocabulary")
  {
  }

  lemma CortexBack(copy: Copy, page: Page, listing: Option<seq<Block>>)
    requires Present(ExtractProperty(copy, page, "Name", TitleKind))
    ensures PageContent(listing) == "" ==> ConvertCortex(copy, page, listing).value.back == NoContent
    ensures PageContent(listing) != "" ==> ConvertCortex(copy, page, listing).value.back == PageContent(listing)
  {
  }

  /** The fields of a page of the Anki Cards database, read directly. */
  function DirectFields(copy: Copy, page: Page): (r: Fields)
    ensures r.front == TextOr(ExtractProperty(copy, page, "Front", TitleKind))
    ensures r.back == TextOr(ExtractProperty(copy, page, "Back", RichTextKind))
    ensures r.deck == TextOr(ExtractProperty(copy, page, "Deck", SelectKind))
    ensures r.source == TextOr(ExtractProperty(copy, page, "Source", UrlKind))
    ensures r.tags == NamesOr(ExtractProperty(copy, page, "Tags", MultiSelectKind))
  {
    Fields(TextOr(ExtractProperty(copy, page, "Front", TitleKind)),
           TextOr(ExtractProperty(copy, page, "Back", RichTextKind)),
           TextOr(ExtractProperty(copy, page, "Deck", SelectKind)),
           TextOr(ExtractProperty(copy, page, "Source", UrlKind)),
           NamesOr(ExtractProperty(copy, page, "Tags", MultiSelectKind)))
  }

  /** `f"{prefix}::{deck}" if deck else prefix`. */
  function FullDeckName(prefix: string, deck: string): (r: string)
    ensures deck == "" ==> r == prefix
    ensures deck != "" ==> prefix + "::" <= r && r[|prefix| + 2..] == deck
  {
    if deck != "" then prefix + "::" + deck else prefix
  }

  // ---------------------------------------------------------------------
  // GUIDs

  type HexDigit = d: nat | d < 16

  /** An MD5 hex digest: 32 hex digits. */
  type Digest = s: seq<HexDigit> | |s| == 32 witness seq(32, i => 0)

  function Pow16(n: nat): (r: nat)
    ensures r >= 1
  {
    if n == 0 then 1 else 16 * Pow16(n - 1)
  }

  /** int(digits, 16). */
  function HexValue(ds: seq<HexDigit>): nat {
    if ds == [] then 0 else 16 * HexValue(ds[..|ds| - 1]) + ds[|ds| - 1]
  }

  lemma {:induction false} HexValueBound(ds: seq<HexDigit>)
    ensures HexValue(ds) < Pow16(|ds|)
  {
    if ds != [] {
      HexValueBound(ds[..|ds| - 1]);
    }
  }

  /** generate_anki_guid: the value of the first 15 digits of the digest. */
  function Guid(digest: Digest): (g: nat)
    ensures g < Pow16(15)
  {
    HexValueBound(digest[..15]);
    HexValue(digest[..15])
  }

  // ---------------------------------------------------------------------
  // Packaging

  datatype Note = Note(front: string, back: string, source: string, guid: nat, tags: seq<string>)

  /** The fields a page yields, by its database. */
  function FieldsOf(copy: Copy, page: Page, listing: Option<seq<Block>>): (r: Option<Fields>)
    ensures !IsCortexCard(page) ==> r.Some?
    ensures IsCortexCard(page) ==> (r.None? <==> !Present(ExtractProperty(copy, page, "Name", TitleKind)))
    ensures IsCortexCard(page) && r.Some? ==> CortexTag in r.value.tags
  {
    if IsCortexCard(page) then ConvertCortex(copy, page, listing) else Some(DirectFields(copy, page))
  }

  /** One iteration of the create_anki_package loop: the deck name and note
      of a page, or None when it is skipped. `contents` lists a page body by
      page id and `md5` digests a page id. */
  function NoteOf(copy: Copy, page: Page, contents: string -> Option<seq<Block>>, prefix: string,
                  md5: string -> Digest): (r: Option<(string, Note)>)
    ensures r.Some? ==> r.value.1.front != "" && r.value.1.back != ""
    ensures r.Some? ==> r.value.0 == prefix || prefix + "::" <= r.value.0
    ensures r.Some? ==> r.value.1.guid < Pow16(15)
    ensures r.Some? <==> FieldsOf(copy, page, contents(page.id)).Some?
                         && FieldsOf(copy, page, contents(page.id)).value.front != ""
                         && FieldsOf(copy, page, contents(page.id)).value.back != ""
    ensures r.Some? ==> var f := FieldsOf(copy, page, contents(page.id)).value;
                        && r.value.0 == FullDeckName(prefix, f.deck)
                        && r.value.1.front == f.front && r.value.1.back == f.back
                        && r.value.1.source == f.source && r.value.1.tags == f.tags
                        && r.value.1.guid == Guid(md5(page.id))
  {
    var f := FieldsOf(copy, page, contents(page.id));
    if f.None? || f.value.front == "" || f.value.back == "" then None
    else Some((FullDeckName(prefix, f.value.deck), Note(f.value.front, f.value.back, f.value.source,
                                                         Guid(md5(page.id)), f.value.tags)))
  }

  /** A page is skipped exactly when it has no front or no back: a Cortex
      page whose title is missing or reduces to nothing, or an Anki Cards
      page missing either field. A Cortex page is never skipped for its
      body, which falls back to the placeholder. */
  lemma SkipRule(copy: Copy, page: Page, contents: string -> Option<seq<Block>>, prefix: string,
                 md5: string -> Digest)
    ensures !IsCortexCard(page) ==>
              (NoteOf(copy, page, contents, prefix, md5).None? <==>
                 !Present(ExtractProperty(copy, page, "Front", TitleKind))
                 || !Present(ExtractProperty(copy, page, "Back", RichTextKind)))
    ensures IsCortexCard(page) ==>
              (NoteOf(copy, page, contents, prefix, md5).None? <==>
                 !Present(ExtractProperty(copy, page, "Name", TitleKind))
                 || CortexFront(ExtractProperty(copy, page, "Name", TitleKind).text).0 == "")
  {
  }

  /** The page-to-entry step of a batch. */
  function Entry(copy: Copy, contents: string -> Option<seq<Block>>, prefix: string,
                 md5: string -> Digest): Page -> Option<(string, Note)>
  {
    p => NoteOf(copy, p, contents, prefix, md5)
  }

  /** The (deck, note) entries of a batch, in page order; a skipped page
      contributes nothing, so there are never more entries than pages. */
  function Packaged(copy: Copy, cards: seq<Page>, contents: string -> Option<seq<Block>>, prefix: string,
                    md5: string -> Digest): (r: seq<(string, Note)>)
    ensures |r| <= |cards|
    ensures forall e :: e in r ==> e.1.front != "" && e.1.back != ""
  {
    var f := Entry(copy, contents, prefix, md5);
    var r := FilterMap(cards, f);
    forall e | e in r
      ensures e.1.front != "" && e.1.back != ""
    {
      FilterMapMembership(cards, f, e);
    }
    r
  }

  /** Notes grouped by deck name: the `decks` dict, each deck's notes in
      insertion order. */
  function Grouped(entries: seq<(string, Note)>): (r: map<string, seq<Note>>)
    ensures forall d :: d in r ==> r[d] != []
  {
    if entries == [] then map[]
    else
      AddToDeck(Grouped(entries[..|entries| - 1]), entries[|entries| - 1])
  }

  /** `decks[name].add_note(note)`, creating the deck when it is new. */
  function AddToDeck(g: map<string, seq<Note>>, e: (string, Note)): (r: map<string, seq<Note>>)
    ensures r.Keys == g.Keys + {e.0}
    ensures r[e.0] == (if e.0 in g then g[e.0] else []) + [e.1]
    ensures forall d :: d in g && d != e.0 ==> r[d] == g[d]
  {
    g[e.0 := (if e.0 in g then g[e.0] else []) + [e.1]]
  }

  /** Grouping loses and invents nothing: a deck holds a note exactly when
      the entry (deck, note) was produced. */
  lemma {:induction false} GroupedMembership(entries: seq<(string, Note)>, d: string, n: Note)
    ensures d in Grouped(entries) <==> exists m :: (d, m) in entries
    ensures d in Grouped(entries) ==> (n in Grouped(entries)[d] <==> (d, n) in entries)
  {
    if entries != [] {
      var k := |entries| - 1;
      var init := entries[..k];
      GroupedMembership(init, d, n);
      assert entries == init + [entries[k]];
      assert forall x :: x in entries <==> x in init || x == entries[k];
      if entries[k].0 == d {
        assert (d, entries[k].1) in entries;
      }
      if exists m :: (d, m) in init {
        var m :| (d, m) in init;
        assert (d, m) in entries;
      }
    }
  }

  /** What the package holds: deck d has note n exactly when some page of
      the batch yields that deck name and note. */
  lemma PackageContents(copy: Copy, cards: seq<Page>, contents: string -> Option<seq<Block>>, prefix: string,
                        md5: string -> Digest, d: string, n: Note)
    ensures var g := Grouped(Packaged(copy, cards, contents, prefix, md5));
      (d in g && n in g[d]) <==> exists i :: 0 <= i < |cards| && NoteOf(copy, cards[i], contents, prefix, md5) == Some((d, n))
  {
    var entries := Packaged(copy, cards, contents, prefix, md5);
    var f := Entry(copy, contents, prefix, md5);
    GroupedMembership(entries, d, n);
    FilterMapMembership(cards, f, (d, n));
    if (d, n) in entries {
      assert exists m :: (d, m) in entries;
    }
  }

  lemma GroupedStep(entries: seq<(string, Note)>, e: (string, Note))
    ensures Grouped(entries + [e]) == AddToDeck(Grouped(entries), e)
  {
    assert (entries + [e])[..|entries|] == entries;
  }

  /** The loop of create_anki_package over a batch: each page's entry, if
      any, is added to its deck. */
  method GroupNotes(cards: seq<Page>, f: Page -> Option<(string, Note)>) returns (byDeck: map<string, seq<Note>>)
    ensures byDeck == Grouped(FilterMap(cards, f))
  {
    byDeck := map[];
    for i := 0 to |cards|
      invariant byDeck == Grouped(FilterMap(cards[..i], f))
    {
      var e := f(cards[i]);
      assert cards[..i + 1][..i] == cards[..i];
      assert FilterMap(cards[..i + 1], f) == FilterMap(cards[..i], f) + (if e.Some? then [e.value] else []);
      if e.Some? {
        GroupedStep(FilterMap(cards[..i], f), e.value);
        byDeck := AddToDeck(byDeck, e.value);
      } else {
        assert FilterMap(cards[..i], f) + [] == FilterMap(cards[..i], f);
      }
    }
    assert cards[..|cards|] == cards;
  }

  /** create_anki_package: None for an empty batch; otherwise the decks dict
      the loop fills. */
  method CreateAnkiPackage(copy: Copy, cards: seq<Page>, contents: string -> Option<seq<Block>>, prefix: string,
                           md5: string -> Digest)
    returns (decks: Option<map<string, seq<Note>>>)
    ensures decks.None? <==> cards == []
    ensures decks.Some? ==> decks.value == Grouped(Packaged(copy, cards, contents, prefix, md5))
  {
    if cards == [] {
      return None;
    }
    var byDeck := GroupNotes(cards, Entry(copy, contents, prefix, md5));
    return Some(byDeck);
  }

  // ---------------------------------------------------------------------
  // Querying and the run

  /** query_unsynced_cards: the unsynced pages of the Anki Cards source and
      then those of the Cortex source; `query` lists a source by id (a
      failed query lists nothing). The scripts copy always queries the Anki
      Cards source, the kit copy only when its id is set; both query the
      Cortex source only when its id is set. */
  function QueryUnsynced(copy: Copy, anki: Option<string>, cortex: Option<string>,
                         query: string -> seq<Page>): (r: seq<Page>)
    ensures forall p :: p in r <==>
              ((copy == Scripts || Truthy(anki)) && p in query(anki.GetOr("")))
              || (Truthy(cortex) && p in query(cortex.value))
    ensures copy == Kit && !Truthy(anki) && !Truthy(cortex) ==> r == []
  {
    (if copy == Scripts || Truthy(anki) then query(anki.GetOr("")) else [])
    + (if Truthy(cortex) then query(cortex.value) else [])
  }

  /** The stats part of the state file. */
  datatype SyncState = SyncState(lastSync: Option<string>, totalSynced: nat, lastBatchCount: nat)

  const EmptyState := SyncState(None, 0, 0)

  class AnkiSyncManager {
    const copy: Copy
    const dryRun: bool
    const deckPrefix: string
    /** The data-source ids; the scripts copy refuses to start without the
        Anki Cards one. */
    const ankiSource: Option<string>
    const cortexSource: Option<string>
    /** The state in memory, and the state last written to the state file. */
    var state: SyncState
    var stored: SyncState

    /** The constructor: `prefix` is the configured deck prefix (None when
        there is no configuration file), `loaded` the state file. */
    constructor (copy: Copy, dryRun: bool, prefix: Option<string>, ankiSource: Option<string>,
                 cortexSource: Option<string>, loaded: Option<SyncState>)
      requires copy == Scripts ==> ankiSource.Some?
      ensures this.copy == copy && this.dryRun == dryRun
      ensures deckPrefix == prefix.GetOr(DefaultPrefix(copy))
      ensures this.ankiSource == ankiSource && this.cortexSource == cortexSource
      ensures state == loaded.GetOr(EmptyState) && stored == state
    {
      this.copy, this.dryRun := copy, dryRun;
      deckPrefix := prefix.GetOr(DefaultPrefix(copy));
      this.ankiSource, this.cortexSource := ankiSource, cortexSource;
      state := loaded.GetOr(EmptyState);
      stored := loaded.GetOr(EmptyState);
    }

    /** run: with no unsynced pages nothing changes; otherwise the package
        is built and the batch (every queried page, including the skipped
        ones) is added to the totals, which are saved unless this is a dry
        run. */
    method Run(query: string -> seq<Page>, contents: string -> Option<seq<Block>>, md5: string -> Digest,
               now: string)
      returns (decks: Option<map<string, seq<Note>>>)
      modifies this
      ensures var cards := QueryUnsynced(copy, ankiSource, cortexSource, query);
        && (cards == [] ==> decks.None? && state == old(state) && stored == old(stored))
        && (cards != [] ==>
              && decks == Some(Grouped(Packaged(copy, cards, contents, deckPrefix, md5)))
              && state == SyncState(Some(now), old(state.totalSynced) + |cards|, |cards|)
              && stored == (if dryRun then old(stored) else state))
    {
      var cards := QueryUnsynced(copy, ankiSource, cortexSource, query);
      if cards == [] {
        return None;
      }
      decks := CreateAnkiPackage(copy, cards, contents, deckPrefix, md5);
      state := SyncState(Some(now), state.totalSynced + |cards|, |cards|);
      if !dryRun {
        stored := state;
      }
    }
  }
}
