/** The content script (content.js) beneath its DOM scraping: the page
    classifier, the platform branches of `extractMetadata` with their category
    overrides and title fallbacks, the username parsers and the message
    handler. What the script reads from the page arrives as a `Page` value. */
module Content {
  import opened Wrappers
  import opened Strings
  import opened Bookmarks
  import Classify

  // ----- detectCategoryFromPage -----

  /** content.js `detectCategoryFromPage`: on the lower-cased address, video
      substrings first, then image, then audio, else text. */
  function PageCategory(href: string): (c: Category)
    ensures var u := Lower(href);
      && (c == Video <==> Classify.AnyMatch(PageVideoPatterns, u))
      && (c == Image <==> !Classify.AnyMatch(PageVideoPatterns, u) && Classify.AnyMatch(PageImagePatterns, u))
      && (c == Audio <==> !Classify.AnyMatch(PageVideoPatterns, u) && !Classify.AnyMatch(PageImagePatterns, u)
                          && Classify.AnyMatch(PageAudioPatterns, u))
  {
    var u := Lower(href);
    AnyMatchVideo(u);
    AnyMatchPairs(u);
    if Contains(u, "youtube.com/watch") || Contains(u, "youtu.be")
       || Contains(u, "instagram.com/reel") || Contains(u, "tiktok.com") then Video
    else if Contains(u, "instagram.com/p/") || Contains(u, "pinterest.com") then Image
    else if Contains(u, "spotify.com") || Contains(u, "soundcloud.com") then Audio
    else Text
  }

  const PageVideoPatterns: seq<Classify.Pattern> := [
    Classify.Literal("youtube.com/watch"), Classify.Literal("youtu.be"),
    Classify.Literal("instagram.com/reel"), Classify.Literal("tiktok.com")]
  const PageImagePatterns: seq<Classify.Pattern> := [
    Classify.Literal("instagram.com/p/"), Classify.Literal("pinterest.com")]
  const PageAudioPatterns: seq<Classify.Pattern> := [
    Classify.Literal("spotify.com"), Classify.Literal("soundcloud.com")]

  /** The page classifier's rules in the order it tries them: unlike the
      popup's, image comes before audio. */
  function PageRules(): seq<(Classify.Pattern, Category)> {
    Classify.Tagged(PageVideoPatterns, Video) + Classify.Tagged(PageImagePatterns, Image)
      + Classify.Tagged(PageAudioPatterns, Audio)
  }

  lemma AnyMatchPairs(u: string)
    ensures Classify.AnyMatch(PageImagePatterns, u) <==> Contains(u, "instagram.com/p/") || Contains(u, "pinterest.com")
    ensures Classify.AnyMatch(PageAudioPatterns, u) <==> Contains(u, "spotify.com") || Contains(u, "soundcloud.com")
  {
    assert Classify.Matches(PageImagePatterns[0], u) <==> Contains(u, "instagram.com/p/");
    assert Classify.Matches(PageImagePatterns[1], u) <==> Contains(u, "pinterest.com");
    assert Classify.Matches(PageAudioPatterns[0], u) <==> Contains(u, "spotify.com");
    assert Classify.Matches(PageAudioPatterns[1], u) <==> Contains(u, "soundcloud.com");
  }

  lemma AnyMatchVideo(u: string)
    ensures Classify.AnyMatch(PageVideoPatterns, u) <==>
      (Contains(u, "youtube.com/watch") || Contains(u, "youtu.be")
       || Contains(u, "instagram.com/reel") || Contains(u, "tiktok.com"))
  {
    assert Classify.Matches(PageVideoPatterns[0], u) <==> Contains(u, "youtube.com/watch");
    assert Classify.Matches(PageVideoPatterns[1], u) <==> Contains(u, "youtu.be");
    assert Classify.Matches(PageVideoPatterns[2], u) <==> Contains(u, "instagram.com/reel");
    assert Classify.Matches(PageVideoPatterns[3], u) <==> Contains(u, "tiktok.com");
  }

  /** First match wins: the page category is that of the first rule of the
      ordered table the lower-cased address matches, and text when none does. */
  lemma PageFirstMatchWins(href: string)
    ensures PageCategory(href) == Classify.FirstRule(PageRules(), Lower(href)).GetOr(Text)
  {
    var u := Lower(href);
    var v, i, a := Classify.Tagged(PageVideoPatterns, Video), Classify.Tagged(PageImagePatterns, Image),
      Classify.Tagged(PageAudioPatterns, Audio);
    Classify.FirstRuleAppend(v + i, a, u);
    Classify.FirstRuleAppend(v, i, u);
    Classify.FirstRuleTagged(PageVideoPatterns, Video, u);
    Classify.FirstRuleTagged(PageImagePatterns, Image, u);
    Classify.FirstRuleTagged(PageAudioPatterns, Audio, u);
    AnyMatchVideo(u);
    AnyMatchPairs(u);
  }

  /** The two classifiers disagree: an address holding "soundcloud.com" and
      "pinterest.com" and no video rule of either is audio in the popup and an
      image on the page. */
  lemma ClassifiersDisagree(href: string)
    requires Contains(Lower(href), "soundcloud.com") && Contains(Lower(href), "pinterest.com")
    requires !Classify.AnyMatch(Classify.VideoPatterns, Lower(href))
    requires !Classify.AnyMatch(PageVideoPatterns, Lower(href))
    ensures Classify.CategoryOf(href) == Audio
    ensures PageCategory(href) == Image
  {
    AnyMatchVideo(Lower(href));
    assert Classify.Matches(Classify.AudioPatterns[2], Lower(href));
  }

  // ----- what the script reads from the page -----

  /** A `<meta>` element: absent, or present with a `content` attribute that may be missing. */
  datatype MetaTag = NoTag | Tag(content: Option<string>)

  /** The page as `extractMetadata` sees it. Each element lookup is None when
      the selector finds nothing and otherwise holds the element's text. */
  datatype Page = Page(
    href: string,                  // window.location.href
    pathname: string,              // window.location.pathname
    documentTitle: string,         // document.title
    description: Option<string>,   // getMetaContent('description')
    heading: Option<string>,       // the first h1
    ogTitle: MetaTag,              // meta[property="og:title"]
    youTubeHeading: Option<string>,// the YouTube title heading
    youTubeMetaTitle: MetaTag,     // meta[name="title"]
    youTubeChannel: Option<string>,
    youTubeDuration: Option<string>,
    tikTokUsername: Option<string>,
    instagramLink: Option<string>) // href of the first link starting with "/"

  /** What `extractMetadata` returns: None stands for null and for a field
      the branch taken does not set. */
  datatype Metadata = Metadata(
    url: string,
    title: Option<string>,
    description: Option<string>,
    category: Category,
    platform: Option<string>,
    username: Option<string>,
    channel: Option<string>,
    duration: Option<string>)

  // ----- title extractors -----

  function TrimmedText(element: Option<string>): Option<string> {
    match element
    case None => None
    case Some(t) => Some(Trim(t))
  }

  function Content(tag: MetaTag): Option<string> {
    match tag
    case NoTag => None
    case Tag(c) => c
  }

  /** content.js `extractInstagramTitle`: the heading's text without white
      space at its ends, else the og:title tag's content, if any. */
  function InstagramTitle(page: Page): (title: Option<string>)
    ensures page.heading.Some? ==> title == Some(Trim(page.heading.value)) && Trimmed(title.value)
    ensures page.heading.None? ==> title == Content(page.ogTitle)
  {
    if page.heading.Some? then TrimmedText(page.heading) else Content(page.ogTitle)
  }

  const YouTubeSuffix: string := " - YouTube"

  /** content.js `extractYouTubeTitle`: the heading, else the title meta tag's
      content, else the document title with its first " - YouTube" cut out. */
  function YouTubeTitle(page: Page): (title: Option<string>)
    ensures page.youTubeHeading.Some? ==> title == Some(Trim(page.youTubeHeading.value))
    ensures page.youTubeHeading.None? && page.youTubeMetaTitle.Tag? ==> title == page.youTubeMetaTitle.content
    ensures page.youTubeHeading.None? && page.youTubeMetaTitle.NoTag? ==>
      title.Some? && |title.value| <= |page.documentTitle|
      && (title.value == page.documentTitle <==> !Contains(page.documentTitle, YouTubeSuffix))
    ensures page.youTubeHeading.None? && page.youTubeMetaTitle.NoTag? && Contains(page.documentTitle, YouTubeSuffix) ==>
      var d := page.documentTitle;
      && IndexOf(d, YouTubeSuffix).Some?
      && var i := IndexOf(d, YouTubeSuffix).value;
      && OccursAt(d, YouTubeSuffix, i)
      && (forall j :: 0 <= j < i ==> !OccursAt(d, YouTubeSuffix, j))
      && title == Some(d[..i] + d[i + |YouTubeSuffix|..])
  {
    if page.youTubeHeading.Some? then TrimmedText(page.youTubeHeading)
    else if page.youTubeMetaTitle.Tag? then page.youTubeMetaTitle.content
    else
      CutFirst(page.documentTitle, YouTubeSuffix);
      Some(ReplaceFirst(page.documentTitle, YouTubeSuffix, ""))
  }

  /** A document title that ends in the only " - YouTube" it holds loses exactly that suffix. */
  lemma YouTubeSuffixRemoved(page: Page, name: string)
    requires page.youTubeHeading.None? && page.youTubeMetaTitle.NoTag?
    requires page.documentTitle == name + YouTubeSuffix
    requires forall j :: 0 <= j < |name| ==> !OccursAt(page.documentTitle, YouTubeSuffix, j)
    ensures YouTubeTitle(page) == Some(name)
  {
    CutOnlySuffix(name, YouTubeSuffix);
  }

  /** content.js `extractTikTokTitle`: the heading's text, else "TikTok Video". */
  function TikTokTitle(page: Page): (title: string)
    ensures page.heading.None? ==> title == "TikTok Video"
    ensures page.heading.Some? ==> title == Trim(page.heading.value) && Trimmed(title)
  {
    if page.heading.Some? then Trim(page.heading.value) else "TikTok Video"
  }

  /** `title || fallback`: a null or empty title gives the fallback, any
      other title is kept. */
  function OrElse(title: Option<string>, fallback: string): (r: string)
    ensures fallback != "" ==> r != ""
    ensures r == fallback || (title == Some(r) && r != "")
    ensures title.Some? && title.value != "" ==> r == title.value
    ensures (title.None? || title.value == "") ==> r == fallback
  {
    if title.Some? && title.value != "" then title.value else fallback
  }

  // ----- usernames -----

  /** content.js `extractTwitterUsername`: "@" and the second piece of the
      path split on "/", when there is one. */
  function TwitterUsername(pathname: string): (name: Option<string>)
    ensures name.Some? <==> '/' in pathname
  {
    var parts := Split(pathname, '/');
    CountCharIn(pathname, '/');
    if |parts| > 1 then Some("@" + parts[1]) else None
  }

  /** A path "/handle" or "/handle/…" names the handle. */
  lemma TwitterHandle(handle: string, rest: string)
    requires '/' !in handle
    requires rest == "" || rest[0] == '/'
    ensures TwitterUsername("/" + handle + rest) == Some("@" + handle)
  {
    var path := "/" + handle + rest;
    assert path == "" + ['/'] + (handle + rest);
    SplitPiece("", handle + rest, '/');
    if rest == "" {
      assert handle + rest == handle + "";
      SplitPrefix(handle, "", '/');
      assert handle + "" == handle;
    } else {
      assert handle + rest == handle + ['/'] + rest[1..];
      SplitPiece(handle, rest[1..], '/');
    }
  }

  /** The bare path "/" gives the handle "@". */
  lemma TwitterRootPath()
    ensures TwitterUsername("/") == Some("@")
  {
    assert "/"[1..] == "";
    assert Split("/", '/') == [""] + Split("", '/');
    assert "@" + "" == "@";
  }

  /** The `^/([^/]+)/` match of `extractInstagramUsername`: "@" and the first
      path segment, when the link starts with "/", the segment is not empty
      and a "/" follows it. */
  function InstagramUsername(link: string): (name: Option<string>)
    ensures name.Some? ==> |name.value| >= 2 && name.value[0] == '@' && '/' !in name.value[1..]
    ensures name.Some? ==> |link| >= 3 && link[0] == '/'
  {
    if |link| > 0 && link[0] == '/' then
      var parts := Split(link[1..], '/');
      if |parts| >= 2 && parts[0] != "" then
        var name := "@" + parts[0];
        assert name[1..] == parts[0];
        CountCharIn(link[1..], '/');
        Some(name)
      else None
    else None
  }

  /** The regular expression's meaning, both ways: the link gives "@" + `segment`
      exactly when it is "/" + `segment` + "/" + something, with `segment` a
      non-empty run of characters other than "/". */
  lemma InstagramUsernameMatches(link: string, segment: string)
    ensures InstagramUsername(link) == Some("@" + segment) <==>
      segment != "" && '/' !in segment && exists rest :: link == "/" + segment + "/" + rest
  {
    if segment != "" && '/' !in segment && exists rest :: link == "/" + segment + "/" + rest {
      var rest :| link == "/" + segment + "/" + rest;
      InstagramUsernameFromPath(segment, rest);
    }
    if InstagramUsername(link) == Some("@" + segment) {
      InstagramPathFromUsername(link, segment);
    }
  }

  lemma InstagramUsernameFromPath(segment: string, rest: string)
    requires segment != "" && '/' !in segment
    ensures InstagramUsername("/" + segment + "/" + rest) == Some("@" + segment)
  {
    var link := "/" + segment + "/" + rest;
    assert link[1..] == segment + ['/'] + rest;
    SplitPiece(segment, rest, '/');
  }

  lemma InstagramPathFromUsername(link: string, segment: string)
    requires InstagramUsername(link) == Some("@" + segment)
    ensures segment != "" && '/' !in segment
    ensures link == "/" + segment + "/" + Join(Split(link[1..], '/')[1..], "/")
  {
    var parts := Split(link[1..], '/');
    assert ("@" + segment)[1..] == segment && ("@" + parts[0])[1..] == parts[0];
    JoinSplit(link[1..], '/');
    JoinCons(parts[0], parts[1..], "/");
    assert parts == [parts[0]] + parts[1..];
    assert link == [link[0]] + link[1..];
  }

  function InstagramUsernameOf(link: Option<string>): Option<string> {
    match link
    case None => None
    case Some(l) => InstagramUsername(l)
  }

  // ----- extractMetadata -----

  /** The platform branches of `extractMetadata`, in the order they are tried. */
  datatype Site = InstagramSite | YouTubeSite | TikTokSite | TwitterSite | SpotifySite | OtherSite

  /** The branch tests as an ordered table of substrings. */
  const SiteTable: seq<(string, Site)> := [
    ("instagram.com", InstagramSite), ("youtube.com", YouTubeSite), ("youtu.be", YouTubeSite),
    ("tiktok.com", TikTokSite), ("twitter.com", TwitterSite), ("x.com", TwitterSite),
    ("spotify.com", SpotifySite)]

  function FirstSite(table: seq<(string, Site)>, url: string): Option<Site> {
    if table == [] then None
    else if Contains(url, table[0].0) then Some(table[0].1)
    else FirstSite(table[1..], url)
  }

  lemma FirstSiteStep(table: seq<(string, Site)>, k: nat, url: string)
    requires k < |table|
    ensures FirstSite(table[k..], url)
         == if Contains(url, table[k].0) then Some(table[k].1) else FirstSite(table[k + 1..], url)
  {
    assert table[k..][1..] == table[k + 1..];
  }

  /** The branch taken for an address: the tests are case-sensitive and the
      first that holds wins, so at most one branch runs: the one of the first
      entry of the site table the address contains, and none when it contains
      none. */
  function SiteOf(url: string): (site: Site)
    ensures site == FirstSite(SiteTable, url).GetOr(OtherSite)
  {
    FirstSiteStep(SiteTable, 0, url);
    FirstSiteStep(SiteTable, 1, url);
    FirstSiteStep(SiteTable, 2, url);
    FirstSiteStep(SiteTable, 3, url);
    FirstSiteStep(SiteTable, 4, url);
    FirstSiteStep(SiteTable, 5, url);
    FirstSiteStep(SiteTable, 6, url);
    assert SiteTable[0..] == SiteTable && SiteTable[7..] == [];
    if Contains(url, "instagram.com") then InstagramSite
    else if Contains(url, "youtube.com") || Contains(url, "youtu.be") then YouTubeSite
    else if Contains(url, "tiktok.com") then TikTokSite
    else if Contains(url, "twitter.com") || Contains(url, "x.com") then TwitterSite
    else if Contains(url, "spotify.com") then SpotifySite
    else OtherSite
  }

  /** The name the branch records as the platform. */
  function SiteName(site: Site): Option<string> {
    match site
    case InstagramSite => Some("Instagram")
    case YouTubeSite => Some("YouTube")
    case TikTokSite => Some("TikTok")
    case TwitterSite => Some("Twitter")
    case SpotifySite => Some("Spotify")
    case OtherSite => None
  }

  /** The page's address and what the branch for its site makes of it. This is
      what `extractMetadata` promises, field by field. */
  predicate Describes(md: Metadata, page: Page) {
    var url := page.href;
    var site := SiteOf(url);
    var reel := Contains(url, "/reel/") || Contains(url, "/tv/");
    var post := !reel && Contains(url, "/p/");
    && md.url == url
    && md.description == page.description
    && md.platform == SiteName(site)
    // category: forced by the branch, or as the page classifier detected it
    && md.category == (
      if site == YouTubeSite || site == TikTokSite || (site == InstagramSite && reel) then Video
      else if site == InstagramSite && post then Image
      else if site == SpotifySite then Audio
      else PageCategory(url))
    // title: the branch's extractor with its fallback, else the document title
    && md.title == (
      if site == InstagramSite && reel then Some(OrElse(InstagramTitle(page), "Instagram Reel"))
      else if site == InstagramSite && post then Some(OrElse(InstagramTitle(page), "Instagram Post"))
      else if site == YouTubeSite then YouTubeTitle(page)
      else if site == TikTokSite then Some(TikTokTitle(page))
      else Some(page.documentTitle))
    && md.username == (
      if site == InstagramSite then InstagramUsernameOf(page.instagramLink)
      else if site == TikTokSite then TrimmedText(page.tikTokUsername)
      else if site == TwitterSite then TwitterUsername(page.pathname)
      else None)
    && md.channel == (if site == YouTubeSite then TrimmedText(page.youTubeChannel) else None)
    && md.duration == (if site == YouTubeSite then TrimmedText(page.youTubeDuration) else None)
  }

  /** content.js `extractMetadata`: starts from the address, document title,
      description and detected category, then lets the first branch that
      applies overwrite platform, category, title and the other fields. */
  method ExtractMetadata(page: Page) returns (md: Metadata)
    ensures Describes(md, page)
  {
    var url := page.href;
    md := Metadata(url, Some(page.documentTitle), page.description, PageCategory(url), None, None, None, None);
    if Contains(url, "instagram.com") {
      md := md.(platform := Some("Instagram"));
      md := md.(username := InstagramUsernameOf(page.instagramLink));
      if Contains(url, "/reel/") || Contains(url, "/tv/") {
        md := md.(category := Video);
        md := md.(title := Some(OrElse(InstagramTitle(page), "Instagram Reel")));
      } else if Contains(url, "/p/") {
        md := md.(category := Image);
        md := md.(title := Some(OrElse(InstagramTitle(page), "Instagram Post")));
      }
    } else if Contains(url, "youtube.com") || Contains(url, "youtu.be") {
      md := md.(platform := Some("YouTube"));
      md := md.(category := Video);
      md := md.(title := YouTubeTitle(page));
      md := md.(channel := TrimmedText(page.youTubeChannel));
      md := md.(duration := TrimmedText(page.youTubeDuration));
    } else if Contains(url, "tiktok.com") {
      md := md.(platform := Some("TikTok"));
      md := md.(category := Video);
      md := md.(title := Some(TikTokTitle(page)));
      md := md.(username := TrimmedText(page.tikTokUsername));
    } else if Contains(url, "twitter.com") || Contains(url, "x.com") {
      md := md.(platform := Some("Twitter"));
      md := md.(username := TwitterUsername(page.pathname));
    } else if Contains(url, "spotify.com") {
      md := md.(platform := Some("Spotify"));
      md := md.(category := Audio);
    }
  }

  /** Instagram reels and posts always get a non-empty title, fallback or not. */
  lemma InstagramFallbackTitles(md: Metadata, page: Page)
    requires Describes(md, page)
    ensures SiteOf(page.href) == InstagramSite && (Contains(page.href, "/reel/") || Contains(page.href, "/p/"))
      ==> md.title.Some? && md.title.value != ""
  {
  }

  /** A TikTok page without a heading is titled "TikTok Video". */
  lemma TikTokFallbackTitle(md: Metadata, page: Page)
    requires Describes(md, page)
    ensures SiteOf(page.href) == TikTokSite && page.heading.None? ==> md.title == Some("TikTok Video")
  {
  }

  /** The YouTube, TikTok and Spotify branches fix the category whatever the
      page classifier said; the Twitter branch and pages of no listed site
      keep the detected category. */
  lemma BranchCategories(md: Metadata, page: Page)
    requires Describes(md, page)
    ensures SiteOf(page.href) in {YouTubeSite, TikTokSite} ==> md.category == Video
    ensures SiteOf(page.href) == SpotifySite ==> md.category == Audio
    ensures SiteOf(page.href) in {TwitterSite, OtherSite} ==> md.category == PageCategory(page.href)
    ensures md.platform.None? <==> SiteOf(page.href) == OtherSite
  {
  }

  /** The Twitter test is a plain substring test for "x.com", so any address
      holding "netflix.com" and none of the earlier sites is taken for Twitter. */
  lemma NetflixCountsAsTwitter(page: Page, md: Metadata)
    requires Describes(md, page)
    requires Contains(page.href, "netflix.com")
    requires !Contains(page.href, "instagram.com") && !Contains(page.href, "youtube.com")
    requires !Contains(page.href, "youtu.be") && !Contains(page.href, "tiktok.com")
    ensures md.platform == Some("Twitter")
  {
    var i :| 0 <= i <= |page.href| - 11 && OccursAt(page.href, "netflix.com", i);
    assert page.href[i + 6..i + 11] == "netflix.com"[6..];
    ContainsAt(page.href, "x.com", i + 6);
  }

  /** The content script and the popup read their domain tables in different
      orders: an address holding both "youtube.com" and "instagram.com" is
      YouTube to the popup and Instagram to the content script. */
  lemma SiteOrderDiffersFromPopup(url: string)
    requires Contains(url, "youtube.com") && Contains(url, "instagram.com")
    ensures Classify.PlatformOf(url) == "YouTube"
    ensures SiteName(SiteOf(url)) == Some("Instagram")
  {
  }

  // ----- the message handler -----

  /** The `onMessage` listener: a "getMetadata" request is answered with the
      page's metadata; any other request gets no answer. */
  method HandleMessage(action: string, page: Page) returns (response: Option<Metadata>)
    ensures response.Some? <==> action == "getMetadata"
    ensures response.Some? ==> Describes(response.value, page)
  {
    if action == "getMetadata" {
      var metadata := ExtractMetadata(page);
      return Some(metadata);
    }
    return None;
  }
}
