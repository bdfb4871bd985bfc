// Notion pages as the LifeOS scripts read them from the Notion API: a page
// id, its properties keyed by name, and the blocks of a page body.

module NotionPages {
  import opened Common

  /** The value a property holds, keyed (as in the Notion API) by its kind:
      titles and rich texts are the plain_text of each fragment; a select,
      url, date, number or creation time may be null. */
  datatype PropValue =
    | TitleValue(titles: seq<string>)
    | RichTextValue(texts: seq<string>)
    | SelectValue(selected: Option<string>)
    | MultiSelectValue(names: seq<string>)
    | UrlValue(url: Option<string>)
    | CheckboxValue(checked: bool)
    | DateValue(start: Option<string>)
    | NumberValue(number: Option<int>)
    | CreatedTimeValue(created: Option<string>)
    | OtherValue

  /** A property: its declared "type" and its value. */
  datatype Prop = Prop(propType: string, value: PropValue)

  datatype Page = Page(id: string, properties: map<string, Prop>)

  /** A block of a page body: its type and the plain_text of its rich text. */
  datatype Block = Block(blockType: string, texts: seq<string>)
}
