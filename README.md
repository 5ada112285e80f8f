# Smart Bookmark Organizer — a verified model of its core

Smart Bookmark Organizer is a browser extension. It saves the current tab as a
bookmark, classifies it by content category (video, audio, image, text) and
platform, lets the user tag and search saved bookmarks, shows statistics, and
exports the collection as JSON or CSV. This project models in Dafny the logic
under the extension's DOM and browser-API glue, and proves properties of it:

- the popup's URL classifier, platform table and category icons;
- tag parsing, bookmark construction and prepending, the search filter, the
  five-item list and the "time ago" text;
- the statistics: category and folder counts, the platform and tag frequency
  tables with their top ten / top fifteen, and the seven-day activity chart;
- the content script's page classifier, the platform branches of its metadata
  extractor, the title fallbacks, the username parsers and its message handler;
- the CSV text, the empty guard of both exports and the reported count.

Modules, one per concern:

- `Wrappers` holds `Option`.
- `Strings` holds the JavaScript string operations the scripts use: ASCII
  lower-casing, `includes`, `indexOf`, `replace`, `trim`, `split` on one
  character, `join`, and decimal rendering.
- `Seqs` holds subsequences.
- `Bookmarks` holds the stored records.
- The other modules follow the scripts: `Classify` and `Popup` (popup.js),
  `Stats` (stats.js), `Content` (content.js) and `Export` (export.js).

The loops of the source stay loops:

- `DetectCategory`, `GetPlatform`, the counting loops of the statistics page,
  the activity chart and the CSV builder are methods with loop invariants.
- Each one is proved equal to a specification function, or proved to meet the
  source's promise outright.
- The stored lists that `saveBookmark` and `addNewFolder` change are fields of
  the `Storage` class.

Where the code and its description differ, the model follows the code. Four
places matter:

- The page classifier checks image before audio, unlike the popup
  (`Content.ClassifiersDisagree`).
- The content script's platform branches are case-sensitive substring tests,
  so an address holding "netflix.com" is taken for Twitter
  (`Content.NetflixCountsAsTwitter`).
- Its site order differs from the popup's platform table
  (`Content.SiteOrderDiffersFromPopup`).
- CSV fields are inserted verbatim, so a quote character breaks its row
  (`Export.QuoteInTitleBreaksRow`).

Inputs the scripts get from the browser are parameters:

- the clock: `now`;
- the page: a `Content.Page` value whose element lookups are options;
- the local calendar: `localDate` and `dayBefore`;
- the date text of a CSV row: `dateOf`;
- the JSON serialiser.

## Model

| member | source | states |
|---|---|---|
| Classify.DetectCategory | popup.js:58-110 | the loops over the video, audio and image pattern lists return exactly the category `CategoryOf` assigns: text for the empty URL, else the first category whose list has a matching pattern |
| Classify.FirstMatchWins | popup.js:62-109 | for a non-empty URL the category is that of the first rule of the single ordered table (video rules, then audio, then image) that the lower-cased URL matches, and text when none matches |
| Classify.FirstRuleIsEarliest | popup.js:94-106 | the first-match search finds a matching rule with no matching rule before it, and finds none exactly when no rule matches |
| Classify.FirstRuleAppend | popup.js:94-106 | a first-match search over two tables in a row tries the first table and falls through to the second only when it finds nothing |
| Classify.FirstRuleTagged | popup.js:94-106 | a table of patterns that all carry one category gives that category exactly when some pattern matches |
| Classify.Tagged | popup.js:62-91 | tagging a pattern list keeps its length and order and pairs every pattern with the category |
| Classify.VideoBeatsAll | popup.js:94-96 | any URL matching a video pattern is video, whatever else it contains |
| Classify.AudioBeatsImage | popup.js:98-101 | a URL matching an audio pattern and no video pattern is audio, even when it also matches an image pattern (soundcloud.com with flickr.com) |
| Classify.TikTokWithPinterestIsVideo | popup.js:66 | a URL holding both "tiktok.com" and "pinterest.com" (in any letter case) is video |
| Classify.InstagramPaths | popup.js:67-68 | "instagram.com/reel" and "instagram.com/tv" make a URL video; "instagram.com/p/" makes it an image when no video or audio pattern matches |
| Classify.ApplePodcastIsAudio | popup.js:79 | "apple.com" followed later on the same line by "podcast" makes a URL audio when no video pattern matches |
| Classify.CategoryIgnoresCase | popup.js:63-90 | URLs that differ only in ASCII letter case get the same category |
| Classify.GetPlatform | popup.js:216-237 | the loop over the domain table returns exactly `PlatformOf`: "web" for the empty URL, otherwise the first table entry's name whose domain the URL contains, otherwise "Web" |
| Classify.PlatformFirstMatch | popup.js:216-236 | lower-case "web" for the empty URL; upper-case "Web" for a non-empty URL containing no table domain; otherwise the name of the first table domain the URL contains (case-sensitive, in table order) |
| Classify.FirstDomainIsEarliest | popup.js:232-234 | a domain contained in the URL with no earlier domain contained gives that domain's name |
| Classify.FirstDomainNone | popup.js:232-236 | the domain search finds nothing exactly when the URL contains none of the table's domains |
| Classify.CategoryIcon | popup.js:286-294 | the icon is the page icon 📄 exactly when the text is not one of the four category names; each name gets its own icon |
| Bookmarks.CategoryFromLabel | popup.js:287-293 | a label read as a category is that category's label; the four keys of the icon table are the labels read as categories |
| Bookmarks.LabelRoundTrip | popup.js:287-293 | every category's label is read back as that category |
| Popup.TimeAgo | popup.js:297-304 | with s the whole seconds elapsed: "Just now" exactly when s < 60; below an hour "n" + "m ago" with n = ⌊s/60⌋ between 1 and 59; below a day "n" + "h ago" with n = ⌊s/3600⌋ between 1 and 23; otherwise "n" + "d ago" with n = ⌊s/86400⌋ ≥ 1 |
| Popup.ParseTags | popup.js:173 | empty input gives no tags; each tag is non-empty, trimmed and free of commas; there are at most one more tags than commas; the tags are the trimmed comma-separated pieces in order, and each non-empty piece is kept exactly as often as it occurs while no empty piece is kept |
| Popup.TagsRoundTrip | popup.js:173 | tags that are non-empty, trimmed and comma-free, joined with commas, parse back to the same tags |
| Popup.TrimAll | popup.js:173 | every piece is trimmed and the pieces keep their order and number |
| Popup.NonEmpty | popup.js:173 | the kept pieces are non-empty pieces of the list, in order; every non-empty piece is kept exactly as often as it occurs and no empty piece is kept |
| Popup.SubsequenceLength | popup.js:173 | dropping pieces never makes a list longer |
| Popup.TrimAllTrimmed | popup.js:173 | trimming already trimmed pieces changes nothing |
| Popup.NonEmptyAll | popup.js:173 | dropping empty pieces from a list with none changes nothing |
| Popup.ChosenCategory | popup.js:170 | a category chosen by the user is stored as chosen; "auto" stores the label of the detected category; "auto" or one of the four selector values always stores one of the four labels |
| Popup.NewBookmark | popup.js:170-186 | the new bookmark takes the id "bm-" and the clock reading, the tab's URL, title and icon, the chosen category, the form's folder, the parsed tags (each non-empty, trimmed and comma-free), the clock reading as timestamp and the URL's platform |
| Popup.Storage.SaveBookmark | popup.js:155-196 | without an active tab nothing changes; otherwise the new bookmark is placed in front, so the list becomes the new bookmark followed by the old list unchanged and in order; folders are untouched |
| Popup.Storage.AddFolder | popup.js:314-333 | a missing or blank name changes nothing; otherwise a folder with the trimmed name, the given emoji or 📁, and the clock's id and date is appended to the folders; bookmarks are untouched |
| Popup.RecentView | popup.js:251-257 | the empty state exactly when there are no bookmarks; otherwise the first five bookmarks in stored order, or all of them when fewer |
| Popup.Hit | popup.js:396-401 | a bookmark matches when the lower-cased query occurs in its lower-cased title, URL, one of its tags or its platform; every bookmark matches the empty query |
| Popup.SearchFilter | popup.js:395-401 | the result keeps the order of the stored list; every kept bookmark has the lower-cased query in its lower-cased title, URL, some tag or platform; each matching bookmark is kept as often as it is stored and no other is kept |
| Popup.SearchView | popup.js:385-410 | a blank or whitespace query shows the normal list; otherwise "No bookmarks found" exactly when nothing matches, else the first five matches |
| Popup.SearchShowsMatches | popup.js:396-410 | a search shows at most five bookmarks, all of them matches, in stored order |
| Strings.Trim | popup.js:173 | the result has no leading or trailing whitespace and is never longer than the input |
| Strings.TrimCutsSpace | popup.js:173 | trimming removes exactly whitespace from the two ends |
| Strings.TrimEmpty | popup.js:386 | a text trims to empty exactly when it is all whitespace |
| Strings.TrimTrimmed | popup.js:173 | trimming a trimmed text changes nothing |
| Strings.Split | popup.js:173 | splitting on a character gives one more piece than there are occurrences of it, and no piece contains it |
| Strings.JoinSplit | popup.js:173 | joining the pieces back with the separator gives the text that was split |
| Strings.SplitJoin | popup.js:173 | separator-free pieces joined with the separator split back into the same pieces |
| Strings.DecimalRoundTrip | popup.js:301-303 | the decimal text of a number reads back as the number |
| Strings.Decimal | popup.js:301-303 | the decimal text is a non-empty run of digits that starts with "0" only for the number zero |
| Strings.ReplaceFirst | content.js:91 | a text without the pattern is unchanged; otherwise exactly the first occurrence is replaced |
| Strings.CutFirst | content.js:91 | replacing a contained pattern by the empty text cuts out exactly the occurrence `indexOf` finds |
| Strings.IndexOfContains | content.js:91 | the search for a first occurrence succeeds exactly when the text contains the pattern |
| Stats.LoadStatistics | stats.js:17-32 | the total is the number of bookmarks, each category count is at most the total, and the folder count is the stored folders plus one for the default folder |
| Stats.CategoryCountsSum | stats.js:21-24 | the four category counts sum to at most the total, and to exactly the total when and only when every bookmark's category is one of the four |
| Stats.CountPlatforms | stats.js:54-58 | the counting loop builds the frequency table of the bookmarks' platforms, with a missing platform counted as "Unknown" |
| Stats.TallyFacts | stats.js:54-58 | a frequency table has one row per distinct key, each row's count is the number of occurrences of its key, and the counts sum to the number of keys counted |
| Stats.Bump | stats.js:57 | counting one more key raises the sum of the counts by exactly one |
| Stats.TallyOf | stats.js:55-58 | the counts of the table built by counting the keys one after the other add up to the number of keys |
| Stats.BumpCount | stats.js:57 | counting a key adds one to that key's count and leaves every other count alone |
| Stats.BumpKeys | stats.js:57 | counting a key keeps the table's keys in first-seen order and appends the key when it is new |
| Stats.SortDesc | stats.js:61-62 | sorting gives a rearrangement of the table (same rows, same number), highest count first |
| Stats.InsertDescSorted | stats.js:62 | inserting a row into a table sorted highest first keeps it sorted |
| Stats.InsertDescMultiset | stats.js:62 | inserting a row adds exactly that row |
| Stats.TopNFacts | stats.js:61-63 | the top-n rows are all taken from the table, the whole table is kept when it is small enough, and no row left out has a higher count than a row kept |
| Stats.TopN | stats.js:61-63 | the top-n list has min(n, size) rows, highest count first |
| Stats.TopOfTally | stats.js:61-63 | the top rows of a frequency table have distinct keys, count their keys exactly, and no key left out occurs more often than a key shown |
| Stats.DisplayPlatformBreakdown | stats.js:50-69 | the empty state exactly when there are no bookmarks; otherwise the top ten rows of the platform frequency table: at most ten distinct platforms, highest count first, each with its exact count, and none left out counted more often than one shown |
| Stats.PlatformCounts | stats.js:54-58 | before the cut to ten the platform counts sum to the number of bookmarks, and "Unknown" counts the bookmarks without a platform (together with any stored as "Unknown") |
| Stats.CountTags | stats.js:84-91 | the nested counting loops build the frequency table of all tags of all bookmarks in order |
| Stats.TagCountsSum | stats.js:84-91 | before the cut to fifteen the tag counts sum to the number of tags of all bookmarks; a bookmark without tags adds nothing |
| Stats.TagKeysLength | stats.js:85-90 | the tags counted are exactly as many as the bookmarks carry together |
| Stats.DisplayTopTags | stats.js:80-102 | the empty state exactly when no bookmark has a tag; otherwise the top fifteen rows of the tag frequency table: at most fifteen distinct tags, highest count first, each with its exact count, and none left out occurring more often than one shown |
| Stats.DisplayRecentActivity | stats.js:113-145 | the empty state exactly when there are no bookmarks; otherwise seven buckets from six days ago to today, each counting the bookmarks saved on its date, and a scale that is at least one, at least every count, and equal to some count when above one |
| Stats.IsSameDay | stats.js:174-178 | two dates are the same day exactly when year, month and day of the month are all equal |
| Stats.CountCategory | stats.js:21-24 | a category count never exceeds the number of bookmarks |
| Stats.CountOnDay | stats.js:135-141 | a day's count never exceeds the number of bookmarks |
| Content.PageFirstMatchWins | content.js:136-153 | the page category is that of the first rule (video substrings, then image, then audio) that the lower-cased address contains, and text when none |
| Content.PageCategory | content.js:136-153 | video exactly when the lower-cased address matches a video rule; image exactly when it matches no video rule and an image rule; audio exactly when it matches neither and an audio rule; text otherwise |
| Content.ClassifiersDisagree | content.js:144-150 | an address holding "soundcloud.com" and "pinterest.com" and no video rule is audio to the popup but an image to the content script |
| Content.YouTubeTitle | content.js:84-92 | the trimmed heading when there is one; else the title meta tag's content (possibly none); else the document title with its first " - YouTube" cut out, and unchanged exactly when it holds none |
| Content.YouTubeSuffixRemoved | content.js:91 | a document title "name - YouTube" whose only occurrence is that suffix gives the title "name" |
| Strings.CutOnlySuffix | content.js:91 | removing a pattern whose first occurrence ends the text leaves what came before it |
| Content.TikTokTitle | content.js:109-113 | "TikTok Video" without a heading, otherwise the trimmed heading |
| Content.InstagramTitle | content.js:73-81 | the heading's text without white space at its ends when there is a heading, otherwise the og:title tag's content, if any |
| Content.OrElse | content.js:30-33 | a missing or empty title gives the fallback; any other title is kept as it is |
| Content.TwitterUsername | content.js:123-127 | a username exactly when the path contains "/" |
| Content.TwitterHandle | content.js:123-127 | the path "/handle" or "/handle/…" gives "@handle" |
| Content.TwitterRootPath | content.js:124-125 | the bare path "/" gives the username "@" |
| Content.InstagramUsername | content.js:62-70 | a username is "@" and at least one character with no "/" after it, and comes only from a link starting with "/" |
| Content.InstagramUsernameMatches | content.js:62-70 | the link gives "@seg" exactly when it is "/" + seg + "/" + anything, with seg non-empty and without "/" |
| Content.SiteOf | content.js:24-56 | at most one platform branch runs: the one of the first entry of the ordered site table (Instagram, YouTube, youtu.be, TikTok, Twitter, x.com, Spotify) the address contains, case-sensitively, and none when it contains none |
| Content.ExtractMetadata | content.js:14-59 | the result describes the page: its address and description, the branch's platform, the branch's forced category or the detected one, the branch's title with its fallback, and the branch's username, channel and duration |
| Content.InstagramFallbackTitles | content.js:28-34 | Instagram reels and posts always get a non-empty title, whether the page gives one or the fallback is used |
| Content.TikTokFallbackTitle | content.js:109-113 | a TikTok page without a heading is titled "TikTok Video" |
| Content.BranchCategories | content.js:36-56 | the YouTube and TikTok branches make the page video and the Spotify branch audio; the Twitter branch and other sites keep the detected category; a platform is recorded exactly when a branch runs |
| Content.NetflixCountsAsTwitter | content.js:49 | an address holding "netflix.com" and no earlier site is recorded as Twitter, because it contains "x.com" |
| Content.SiteOrderDiffersFromPopup | content.js:24-36 | an address holding both "youtube.com" and "instagram.com" is YouTube to the popup but Instagram to the content script |
| Content.HandleMessage | content.js:5-11 | a "getMetadata" request is answered with the page's metadata; any other request gets no answer |
| Export.ExportAsJson | export.js:4-25 | no file for an empty collection; otherwise the serialised bookmarks and a count equal to their number |
| Export.ExportAsCsv | export.js:30-61 | no file for an empty collection; otherwise the header followed by one row per bookmark in stored order, and a count equal to their number |
| Export.CsvText | export.js:40-48 | the CSV text begins with the header line and its line break |
| Export.Row | export.js:44-47 | a bookmark's row stays on one line when none of its columns holds a line break |
| Export.CsvLines | export.js:40-48 | when no column holds a line break the text splits into the header line, one line per bookmark in order and nothing after the last break, with one more line break than bookmarks |
| Export.LinesSplit | export.js:47 | lines without breaks of their own, each ended by a break, split back into those lines |
| Export.RowRoundTrip | export.js:45-47 | when no column holds a quote character, a row reads back as its seven columns in the order title, URL, category, platform, folder, tags joined with "; ", date |
| Export.QuoteInTitleBreaksRow | export.js:47 | columns are inserted verbatim: a title holding a quote character does not read back as the title |
| Export.CellsSplit | export.js:47 | quoted cells split on the quote character into an empty piece, the fields with commas between them, and an empty piece |

## Left out

- The DOM is not modelled: element lookups, `innerHTML` templates, HTML escaping, alerts, prompts and notifications. Scraped values are `Option` inputs of `Content.Page`.
- `chrome.storage`, `chrome.tabs` and `chrome.runtime` messaging are asynchronous browser I/O. Storage is the `Popup.Storage` object or a list passed in.
- The clock and local dates are parameters: `Date.now()`, `new Date`, `toLocaleString` and the chart's day labels (stats.js:163-171).
- Generated ids take the clock value as a parameter. The source reads `Date.now()` twice for a bookmark (popup.js:177 for the id, popup.js:183 for the timestamp) and twice for a folder (popup.js:326 and popup.js:329), so the id and the time may differ by a millisecond. The model reads the clock once: `Popup.NewBookmark` and `Popup.Storage.AddFolder` use one `now` for both.
- The activity bar percentage (stats.js:149) is left out: it is floating point.
- `JSON.stringify`, Blob and the download link are left out. The JSON text is a parameter.
- settings.js and background.js are not part of this model. The first wires settings controls to storage, the second only answers a ping.
- The category badge update on a selector change (popup.js:148) is left out. It reads a global that no script assigns.
- Regular expressions in general are not modelled. Every pattern of the popup classifier is a case-insensitive literal, plus one "A, then later on the same line B" pattern, and that is how they are modelled.
- Strings.Lower: lower-cases ASCII letters only. That is exact for the popup's case-insensitive ASCII patterns. For `toLowerCase` in the page classifier and the search, other letters are left as they are.
- Popup.SearchFilter: a stored bookmark without a tags list, a title or a platform makes the source throw (popup.js:397-400 call `toLowerCase` and `some` on them). The model has no such bookmark: a missing tags list is the empty list, and a missing title or platform is the empty text, which matches only through the other fields.
- A missing platform in a stored record is modelled as the empty text, and missing tags as the empty list. The statistics page treats these the same way as the source does. The CSV export would print "undefined" for a missing platform, which the model does not show.
- Classify.CategoryIcon: the icon table is a JavaScript object, so `icons[category]` (popup.js:293) finds inherited `Object.prototype` members for labels such as "constructor" or "toString" and returns them. The model returns 📄 for every text that is not one of the four category names. Stored categories come from the selector or the classifier, so such labels do not arise from the extension's own saves.
- Stats.Bump: a JavaScript object table leaves out two things. Keys that collide with `Object.prototype` names are not modelled. The enumeration order that puts integer-like keys first is not modelled either. The top-n contracts do not depend on the order of rows with equal counts.
- Stats.SortDesc: the sort is modelled as stable, which current engines guarantee. No lemma about the order of equal counts is stated.
- Content.Metadata: a field the branch leaves unset and a field set to null are both `None`.
- The title of a saved tab is taken as present. A tab without a title is not modelled.
- Logging to the console is output only and is left out.
