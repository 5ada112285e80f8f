/** The popup's logic beneath its DOM code (popup.js): relative times, tag
    parsing, building and saving a bookmark, creating a folder, the list of
    recent bookmarks and the search filter. The browser's storage area is the
    `Storage` object; the active tab, the form fields, prompt answers and the
    clock are parameters. */
module Popup {
  import opened Wrappers
  import opened Strings
  import opened Seqs
  import opened Bookmarks
  import opened Classify

  // ----- relative time -----

  /** popup.js `getTimeAgo`, with the clock reading `now` (in milliseconds) as a
      parameter. With `s` the whole seconds elapsed (rounded down, as
      `Math.floor` does, also for a timestamp in the future), the text is
      "Just now" under a minute and otherwise the number of whole minutes, hours
      or days, each in its range. */
  function TimeAgo(now: int, timestamp: int): (r: string)
    ensures var s := (now - timestamp) / 1000;
      && (r == "Just now" <==> s < 60)
      && (60 <= s < 3600 ==>
            exists n: nat | 1 <= n < 60 :: n * 60 <= s < n * 60 + 60 && r == Decimal(n) + "m ago")
      && (3600 <= s < 86400 ==>
            exists n: nat | 1 <= n < 24 :: n * 3600 <= s < n * 3600 + 3600 && r == Decimal(n) + "h ago")
      && (86400 <= s ==>
            exists n: nat | 1 <= n :: n * 86400 <= s < n * 86400 + 86400 && r == Decimal(n) + "d ago")
  {
    // Dafny's division by a positive number rounds down, like Math.floor.
    var seconds := (now - timestamp) / 1000;
    if seconds < 60 then "Just now"
    else if seconds < 3600 then
      var n := seconds / 60;
      assert (Decimal(n) + "m ago")[|Decimal(n) + "m ago"| - 1] == 'o';
      Decimal(n) + "m ago"
    else if seconds < 86400 then
      var n := seconds / 3600;
      assert (Decimal(n) + "h ago")[|Decimal(n) + "h ago"| - 1] == 'o';
      Decimal(n) + "h ago"
    else
      var n := seconds / 86400;
      assert (Decimal(n) + "d ago")[|Decimal(n) + "d ago"| - 1] == 'o';
      Decimal(n) + "d ago"
  }

  // ----- tags -----

  function TrimAll(ps: seq<string>): (r: seq<string>)
    ensures |r| == |ps|
    ensures forall k :: 0 <= k < |ps| ==> r[k] == Trim(ps[k])
  {
    if ps == [] then [] else [Trim(ps[0])] + TrimAll(ps[1..])
  }

  /** The `filter(t => t)` of the tag parsing: the non-empty strings of `ps`,
      in order, each as often as it occurs, and no empty one. */
  function NonEmpty(ps: seq<string>): (r: seq<string>)
    ensures forall k :: 0 <= k < |r| ==> r[k] != "" && r[k] in ps
    ensures SubsequenceOf(r, ps)
    ensures forall s :: multiset(r)[s] == if s == "" then 0 else multiset(ps)[s]
  {
    if ps == [] then []
    else
      var rest := NonEmpty(ps[1..]);
      assert ps == [ps[0]] + ps[1..];
      if ps[0] == "" then rest
      else
        assert ([ps[0]] + rest)[1..] == rest;
        [ps[0]] + rest
  }

  /** The tag parsing of popup.js `saveBookmark`: no input gives no tags;
      otherwise the input is split at every comma, each piece trimmed and the
      empty pieces dropped, keeping their order; every non-empty piece is
      kept. So a tag is never empty, has no white space at either end and
      holds no comma. */
  function ParseTags(input: string): (tags: seq<string>)
    ensures input == "" ==> tags == []
    ensures forall k :: 0 <= k < |tags| ==> tags[k] != "" && Trimmed(tags[k]) && ',' !in tags[k]
    ensures |tags| <= CountChar(input, ',') + 1
    ensures input != "" ==> SubsequenceOf(tags, TrimAll(Split(input, ',')))
    ensures input != "" ==>
      forall s :: multiset(tags)[s] == if s == "" then 0 else multiset(TrimAll(Split(input, ',')))[s]
  {
    if input == "" then []
    else
      var pieces := TrimAll(Split(input, ','));
      var tags := NonEmpty(pieces);
      SubsequenceLength(tags, pieces);
      tags
  }

  lemma {:induction false} SubsequenceLength(a: seq<string>, b: seq<string>)
    requires SubsequenceOf(a, b)
    ensures |a| <= |b|
    decreases |b|
  {
    if a != [] {
      if a[0] == b[0] && SubsequenceOf(a[1..], b[1..]) {
        SubsequenceLength(a[1..], b[1..]);
      } else {
        SubsequenceLength(a, b[1..]);
      }
    }
  }

  lemma {:induction false} TrimAllTrimmed(ps: seq<string>)
    requires forall k :: 0 <= k < |ps| ==> Trimmed(ps[k])
    ensures TrimAll(ps) == ps
  {
    if ps != [] {
      TrimTrimmed(ps[0]);
      TrimAllTrimmed(ps[1..]);
    }
  }

  lemma {:induction false} NonEmptyAll(ps: seq<string>)
    requires forall k :: 0 <= k < |ps| ==> ps[k] != ""
    ensures NonEmpty(ps) == ps
  {
    if ps != [] {
      NonEmptyAll(ps[1..]);
    }
  }

  /** Tags written back as comma-separated text parse to the same tags. */
  lemma TagsRoundTrip(tags: seq<string>)
    requires forall k :: 0 <= k < |tags| ==> tags[k] != "" && Trimmed(tags[k]) && ',' !in tags[k]
    ensures ParseTags(Join(tags, ",")) == tags
  {
    if tags != [] {
      SplitJoin(tags, ',');
      if |tags| > 1 {
        assert Join(tags, ",") == tags[0] + "," + Join(tags[1..], ",");
      }
      assert Join(tags, ",") != "";
      TrimAllTrimmed(tags);
      NonEmptyAll(tags);
    }
  }

  // ----- saving a bookmark -----

  /** What the popup reads from the active tab; an absent favicon is "". */
  datatype Tab = Tab(url: string, title: string, favIconUrl: string)

  /** The values of the category selector, the folder selector and the tag field. */
  datatype SaveForm = SaveForm(categorySelect: string, folder: string, tagsInput: string)

  /** The category a save records: the detected one when the selector says
      "auto", the user's choice otherwise. A save with "auto" or with one of
      the four selector categories records one of the four category labels. */
  function ChosenCategory(url: string, categorySelect: string): (category: string)
    ensures categorySelect != "auto" ==> category == categorySelect
    ensures categorySelect == "auto" ==> CategoryFromLabel(category) == Some(CategoryOf(url))
    ensures (categorySelect == "auto" || IsCategoryLabel(categorySelect)) ==> IsCategoryLabel(category)
  {
    LabelRoundTrip(CategoryOf(url));
    if categorySelect == "auto" then Label(CategoryOf(url)) else categorySelect
  }

  /** The bookmark `saveBookmark` builds at clock reading `now`: the tab's
      address, title and icon, the chosen category, the form's folder, the
      parsed tags, the address's platform, and the clock reading as both the
      timestamp and the id's digits. */
  function NewBookmark(tab: Tab, form: SaveForm, now: nat): (b: Bookmark)
    ensures b.id == "bm-" + Decimal(now) && b.timestamp == now
    ensures b.url == tab.url && b.title == tab.title && b.favicon == tab.favIconUrl
    ensures b.category == ChosenCategory(tab.url, form.categorySelect)
    ensures b.folder == form.folder && b.platform == PlatformOf(tab.url)
    ensures b.tags == ParseTags(form.tagsInput)
    ensures forall k :: 0 <= k < |b.tags| ==> b.tags[k] != "" && Trimmed(b.tags[k]) && ',' !in b.tags[k]
  {
    Bookmark(
      id := "bm-" + Decimal(now),
      url := tab.url,
      title := tab.title,
      category := ChosenCategory(tab.url, form.categorySelect),
      folder := form.folder,
      tags := ParseTags(form.tagsInput),
      timestamp := now,
      favicon := tab.favIconUrl,
      platform := PlatformOf(tab.url))
  }

  /** The emoji a new folder gets when none is given. */
  const DefaultFolderEmoji: string := "\U{1F4C1}"

  /** The extension's local storage area: the stored bookmark list (newest
      first) and the user's folders. */
  class Storage {
    var bookmarks: seq<Bookmark>
    var folders: seq<Folder>

    constructor (bookmarks0: seq<Bookmark>, folders0: seq<Folder>)
      ensures bookmarks == bookmarks0 && folders == folders0
    {
      bookmarks := bookmarks0;
      folders := folders0;
    }

    /** popup.js `saveBookmark`: without an active tab nothing is stored;
        otherwise the new bookmark is put in front of the stored list, which
        keeps every earlier bookmark, in order, behind it. */
    method SaveBookmark(tab: Option<Tab>, form: SaveForm, now: nat) returns (saved: Option<Bookmark>)
      modifies this
      ensures tab.None? ==> saved.None? && bookmarks == old(bookmarks)
      ensures tab.Some? ==> saved == Some(NewBookmark(tab.value, form, now))
      ensures tab.Some? ==> bookmarks == [saved.value] + old(bookmarks)
      ensures folders == old(folders)
    {
      if tab.None? {
        return None;
      }
      var t := tab.value;
      var category := form.categorySelect;
      if category == "auto" {
        var detected := DetectCategory(t.url);
        category := Label(detected);
      }
      var platform := GetPlatform(t.url);
      var bookmark := Bookmark("bm-" + Decimal(now), t.url, t.title, category, form.folder,
                               ParseTags(form.tagsInput), now, t.favIconUrl, platform);
      var list := bookmarks;
      list := [bookmark] + list;
      bookmarks := list;
      return Some(bookmark);
    }

    /** popup.js `addNewFolder`: a cancelled or blank name creates nothing;
        otherwise a folder with the trimmed name and the given emoji (the folder
        emoji when none is given) is appended to the stored folders. */
    method AddFolder(name: Option<string>, emoji: Option<string>, now: nat) returns (created: Option<Folder>)
      modifies this
      ensures (name.None? || Trim(name.value) == "") ==> created.None? && folders == old(folders)
      ensures (name.Some? && Trim(name.value) != "") ==>
        && created == Some(Folder("folder-" + Decimal(now), Trim(name.value),
                                  if emoji.None? || emoji.value == "" then DefaultFolderEmoji else emoji.value, now))
        && folders == old(folders) + [created.value]
      ensures bookmarks == old(bookmarks)
    {
      if name.None? || Trim(name.value) == "" {
        return None;
      }
      var glyph := if emoji.None? || emoji.value == "" then DefaultFolderEmoji else emoji.value;
      var folder := Folder("folder-" + Decimal(now), Trim(name.value), glyph, now);
      folders := folders + [folder];
      return Some(folder);
    }
  }

  // ----- the list of bookmarks -----

  /** What the popup's bookmark list shows: an empty-state message or at most
      five bookmarks. */
  datatype ListView = EmptyState(message: string) | Items(items: seq<Bookmark>)

  const MaxShown: nat := 5

  /** popup.js `loadBookmarks`: the empty state for an empty store, otherwise
      the first five bookmarks of the stored list (the most recently saved). */
  function RecentView(bookmarks: seq<Bookmark>): (v: ListView)
    ensures v.EmptyState? <==> bookmarks == []
    ensures v.Items? ==> 1 <= |v.items| <= MaxShown && |v.items| <= |bookmarks| && v.items == bookmarks[..|v.items|]
    ensures v.Items? && |bookmarks| >= MaxShown ==> |v.items| == MaxShown
    ensures v.Items? && |bookmarks| < MaxShown ==> v.items == bookmarks
  {
    if |bookmarks| == 0 then EmptyState("No bookmarks yet. Save your first one! \U{1F389}")
    else Items(bookmarks[..Min(MaxShown, |bookmarks|)])
  }

  // ----- search -----

  /** Whether a bookmark matches a lower-cased query: the query occurs in the
      lower-cased title, URL, one of the tags or the platform. Every bookmark
      matches the empty query. */
  predicate Hit(b: Bookmark, q: string)
    ensures q == "" ==> Hit(b, q)
  {
    ContainsEmpty(Lower(b.title));
    || Contains(Lower(b.title), q)
    || Contains(Lower(b.url), q)
    || (exists k | 0 <= k < |b.tags| :: Contains(Lower(b.tags[k]), q))
    || Contains(Lower(b.platform), q)
  }

  /** The `filter` of popup.js `searchBookmarks`: the matching bookmarks, in
      stored order, each as often as it is stored, and nothing else. */
  function SearchFilter(bookmarks: seq<Bookmark>, q: string): (r: seq<Bookmark>)
    ensures SubsequenceOf(r, bookmarks)
    ensures forall b :: b in r ==> Hit(b, q)
    ensures forall b :: multiset(r)[b] == if Hit(b, q) then multiset(bookmarks)[b] else 0
  {
    if bookmarks == [] then []
    else
      var rest := SearchFilter(bookmarks[1..], q);
      assert bookmarks == [bookmarks[0]] + bookmarks[1..];
      if Hit(bookmarks[0], q) then
        assert ([bookmarks[0]] + rest)[1..] == rest;
        [bookmarks[0]] + rest
      else rest
  }

  /** popup.js `searchBookmarks`: a query that is blank after trimming shows the
      normal list; otherwise the bookmarks matching the lower-cased query (which
      is not trimmed) are filtered, and the first five are shown, or the
      "not found" state when none matches. */
  function SearchView(bookmarks: seq<Bookmark>, query: string): (v: ListView)
    ensures Trim(query) == "" ==> v == RecentView(bookmarks)
    ensures Trim(query) != "" ==>
      var found := SearchFilter(bookmarks, Lower(query));
      && (v.EmptyState? <==> found == [])
      && (v.Items? ==> v.items == found[..Min(MaxShown, |found|)])
  {
    if Trim(query) == "" then RecentView(bookmarks)
    else
      var found := SearchFilter(bookmarks, Lower(query));
      if |found| == 0 then EmptyState("No bookmarks found \U{1F50D}")
      else Items(found[..Min(MaxShown, |found|)])
  }

  /** What a search shows is at most five stored bookmarks, in stored order,
      each of which matches the query. */
  lemma SearchShowsMatches(bookmarks: seq<Bookmark>, query: string)
    requires Trim(query) != ""
    ensures SearchView(bookmarks, query).Items? ==>
      var items := SearchView(bookmarks, query).items;
      && |items| <= MaxShown
      && SubsequenceOf(items, bookmarks)
      && forall b :: b in items ==> Hit(b, Lower(query))
  {
    var found := SearchFilter(bookmarks, Lower(query));
    if SearchView(bookmarks, query).Items? {
      SubsequencePrefix(found, bookmarks, Min(MaxShown, |found|));
    }
  }
}
