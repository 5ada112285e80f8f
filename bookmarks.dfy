/** The records the extension keeps in local storage, as plain values. */
module Bookmarks {
  import opened Wrappers

  /** The four content categories. A stored bookmark keeps its category as text
      (the popup's category selector and imported files can put any text there);
      `Label` and `CategoryFromLabel` translate between the two. */
  datatype Category = Video | Audio | Image | Text

  function Label(c: Category): string {
    match c
    case Video => "video"
    case Audio => "audio"
    case Image => "image"
    case Text => "text"
  }

  /** The category a stored label names, if it names one. */
  function CategoryFromLabel(s: string): (r: Option<Category>)
    ensures r.Some? ==> Label(r.value) == s
  {
    if s == "video" then Some(Video)
    else if s == "audio" then Some(Audio)
    else if s == "image" then Some(Image)
    else if s == "text" then Some(Text)
    else None
  }

  /** Every category's label is read back as that category. */
  lemma LabelRoundTrip(c: Category)
    ensures CategoryFromLabel(Label(c)) == Some(c)
  {
  }

  predicate IsCategoryLabel(s: string) {
    s == "video" || s == "audio" || s == "image" || s == "text"
  }

  /** A saved page. `platform` is the empty text when a stored record has none;
      `tags` is the empty list when a stored record has none. */
  datatype Bookmark = Bookmark(
    id: string,
    url: string,
    title: string,
    category: string,
    folder: string,
    tags: seq<string>,
    timestamp: int,
    favicon: string,
    platform: string)

  /** A user-created folder. The folder "default" is implicit and never stored. */
  datatype Folder = Folder(id: string, name: string, emoji: string, createdAt: int)
}
