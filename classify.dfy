/** The popup's URL classification (popup.js `detectCategory`), its platform
    labelling (`getPlatform`) and the category icons (`getCategoryIcon`). */
module Classify {
  import opened Wrappers
  import opened Strings
  import opened Bookmarks

  // ----- URL rules -----

  /** One URL rule. Every rule of the popup is either a literal piece of text or
      a piece of text followed, later on the same line, by a second piece. */
  datatype Pattern = Literal(text: string) | Then(first: string, second: string)

  predicate NoLineBreak(s: string) {
    forall k :: 0 <= k < |s| ==> !IsLineTerminator(s[k])
  }

  /** Whether rule `p` matches the ASCII-lower-cased URL `u`. The rules are
      lower-case ASCII, so comparing them with the lower-cased URL is the same as
      the case-insensitive match of the source. In `Then(a, b)` the text between
      `a` and `b` is what `.*` matches: it holds no line terminator. */
  predicate Matches(p: Pattern, u: string) {
    match p
    case Literal(t) => Contains(u, t)
    case Then(a, b) =>
      exists i, j | 0 <= i <= j <= |u| ::
        && OccursAt(u, a, i) && i + |a| <= j && OccursAt(u, b, j)
        && NoLineBreak(u[i + |a|..j])
  }

  const VideoPatterns: seq<Pattern> := [
    Literal("youtube.com/watch"), Literal("youtu.be/"), Literal("vimeo.com"),
    Literal("tiktok.com"), Literal("instagram.com/reel"), Literal("instagram.com/tv"),
    Literal("facebook.com/watch"), Literal("dailymotion.com"), Literal("twitch.tv")]

  const AudioPatterns: seq<Pattern> := [
    Literal("spotify.com/track"), Literal("spotify.com/episode"), Literal("soundcloud.com"),
    Then("apple.com", "podcast"), Literal("anchor.fm")]

  const ImagePatterns: seq<Pattern> := [
    Literal("pinterest.com"), Literal("unsplash.com"), Literal("pexels.com"),
    Literal("flickr.com"), Literal("instagram.com/p/"), Literal("behance.net")]

  predicate AnyMatch(ps: seq<Pattern>, u: string) {
    exists k | 0 <= k < |ps| :: Matches(ps[k], u)
  }

  /** The category `detectCategory` gives a URL: an empty (or absent) URL is
      text; otherwise the video rules are tried, then the audio rules, then the
      image rules, and a URL no rule matches is text. */
  function CategoryOf(url: string): Category {
    if url == "" then Text
    else
      var u := Lower(url);
      if AnyMatch(VideoPatterns, u) then Video
      else if AnyMatch(AudioPatterns, u) then Audio
      else if AnyMatch(ImagePatterns, u) then Image
      else Text
  }

  /** popup.js `detectCategory`: three loops over the rule tables, each
      returning at the first rule that matches. */
  method DetectCategory(url: string) returns (c: Category)
    ensures c == CategoryOf(url)
  {
    if url == "" {
      return Text;
    }
    var u := Lower(url);
    for k := 0 to |VideoPatterns|
      invariant forall m :: 0 <= m < k ==> !Matches(VideoPatterns[m], u)
    {
      if Matches(VideoPatterns[k], u) {
        return Video;
      }
    }
    for k := 0 to |AudioPatterns|
      invariant forall m :: 0 <= m < k ==> !Matches(AudioPatterns[m], u)
    {
      if Matches(AudioPatterns[k], u) {
        return Audio;
      }
    }
    for k := 0 to |ImagePatterns|
      invariant forall m :: 0 <= m < k ==> !Matches(ImagePatterns[m], u)
    {
      if Matches(ImagePatterns[k], u) {
        return Image;
      }
    }
    return Text;
  }

  // ----- the rules as one ordered table -----

  /** A rule table in which every rule carries the category it stands for. */
  function Tagged(ps: seq<Pattern>, c: Category): (r: seq<(Pattern, Category)>)
    ensures |r| == |ps|
    ensures forall k :: 0 <= k < |ps| ==> r[k] == (ps[k], c)
  {
    if ps == [] then [] else [(ps[0], c)] + Tagged(ps[1..], c)
  }

  /** All rules in the order the popup tries them. */
  function AllRules(): seq<(Pattern, Category)> {
    Tagged(VideoPatterns, Video) + Tagged(AudioPatterns, Audio) + Tagged(ImagePatterns, Image)
  }

  /** The category of the first rule in `rules` that matches `u`. */
  function FirstRule(rules: seq<(Pattern, Category)>, u: string): Option<Category> {
    if rules == [] then None
    else if Matches(rules[0].0, u) then Some(rules[0].1)
    else FirstRule(rules[1..], u)
  }

  /** FirstRule finds the earliest matching rule. */
  lemma {:induction false} FirstRuleIsEarliest(rules: seq<(Pattern, Category)>, u: string)
    ensures FirstRule(rules, u).None? <==> forall k :: 0 <= k < |rules| ==> !Matches(rules[k].0, u)
    ensures FirstRule(rules, u).Some? ==>
      exists k | 0 <= k < |rules| ::
        && Matches(rules[k].0, u) && rules[k].1 == FirstRule(rules, u).value
        && forall m :: 0 <= m < k ==> !Matches(rules[m].0, u)
  {
    if rules != [] && !Matches(rules[0].0, u) {
      FirstRuleIsEarliest(rules[1..], u);
      if FirstRule(rules, u).Some? {
        var k :| 0 <= k < |rules| - 1 && Matches(rules[1..][k].0, u)
          && rules[1..][k].1 == FirstRule(rules, u).value
          && forall m :: 0 <= m < k ==> !Matches(rules[1..][m].0, u);
        assert forall m :: 0 < m < k + 1 ==> rules[m] == rules[1..][m - 1];
      }
    }
  }

  lemma {:induction false} FirstRuleAppend(a: seq<(Pattern, Category)>, b: seq<(Pattern, Category)>, u: string)
    ensures FirstRule(a + b, u) == if FirstRule(a, u).Some? then FirstRule(a, u) else FirstRule(b, u)
  {
    if a != [] {
      assert (a + b)[1..] == a[1..] + b;
      FirstRuleAppend(a[1..], b, u);
    } else {
      assert a + b == b;
    }
  }

  lemma {:induction false} FirstRuleTagged(ps: seq<Pattern>, c: Category, u: string)
    ensures FirstRule(Tagged(ps, c), u) == if AnyMatch(ps, u) then Some(c) else None
  {
    if ps != [] {
      FirstRuleTagged(ps[1..], c, u);
      if Matches(ps[0], u) {
        assert AnyMatch(ps, u);
      } else {
        assert AnyMatch(ps, u) <==> AnyMatch(ps[1..], u) by {
          if AnyMatch(ps, u) {
            var k :| 0 <= k < |ps| && Matches(ps[k], u);
            assert Matches(ps[1..][k - 1], u);
          }
          if AnyMatch(ps[1..], u) {
            var k :| 0 <= k < |ps| - 1 && Matches(ps[1..][k], u);
            assert Matches(ps[k + 1], u);
          }
        }
      }
    }
  }

  /** First match wins: the category of a non-empty URL is that of the first
      rule of the whole ordered table that matches it, and text when none does. */
  lemma FirstMatchWins(url: string)
    requires url != ""
    ensures CategoryOf(url) == FirstRule(AllRules(), Lower(url)).GetOr(Text)
  {
    var u := Lower(url);
    FirstRuleAppend(Tagged(VideoPatterns, Video) + Tagged(AudioPatterns, Audio), Tagged(ImagePatterns, Image), u);
    FirstRuleAppend(Tagged(VideoPatterns, Video), Tagged(AudioPatterns, Audio), u);
    FirstRuleTagged(VideoPatterns, Video, u);
    FirstRuleTagged(AudioPatterns, Audio, u);
    FirstRuleTagged(ImagePatterns, Image, u);
  }

  // ----- consequences of the order -----

  /** Every video rule beats every other rule: a URL holding "tiktok.com" is a
      video even when it also holds "pinterest.com". */
  lemma VideoBeatsAll(url: string, k: nat)
    requires k < |VideoPatterns| && Matches(VideoPatterns[k], Lower(url))
    ensures CategoryOf(url) == Video
  {
  }

  /** An audio rule beats every image rule: a URL holding "soundcloud.com" and
      "flickr.com" is audio. */
  lemma AudioBeatsImage(url: string, k: nat)
    requires k < |AudioPatterns| && Matches(AudioPatterns[k], Lower(url))
    requires !AnyMatch(VideoPatterns, Lower(url))
    ensures CategoryOf(url) == Audio
  {
  }

  lemma TikTokWithPinterestIsVideo(url: string)
    requires Contains(Lower(url), "tiktok.com") && Contains(Lower(url), "pinterest.com")
    ensures CategoryOf(url) == Video
  {
    assert Matches(VideoPatterns[3], Lower(url));
  }

  /** Instagram reels and TV pages are videos; other Instagram posts are images
      unless an earlier rule matches. */
  lemma InstagramPaths(url: string)
    ensures Contains(Lower(url), "instagram.com/reel") ==> CategoryOf(url) == Video
    ensures Contains(Lower(url), "instagram.com/tv") ==> CategoryOf(url) == Video
    ensures (Contains(Lower(url), "instagram.com/p/") && !AnyMatch(VideoPatterns, Lower(url))
              && !AnyMatch(AudioPatterns, Lower(url))) ==> CategoryOf(url) == Image
  {
    if Contains(Lower(url), "instagram.com/reel") {
      assert Matches(VideoPatterns[4], Lower(url));
    }
    if Contains(Lower(url), "instagram.com/tv") {
      assert Matches(VideoPatterns[5], Lower(url));
    }
    if Contains(Lower(url), "instagram.com/p/") {
      assert Matches(ImagePatterns[4], Lower(url));
    }
  }

  /** "apple.com" followed later on the same line by "podcast" is audio, when no
      video rule applies. */
  lemma ApplePodcastIsAudio(url: string, i: nat, j: nat)
    requires OccursAt(Lower(url), "apple.com", i) && i + 9 <= j && OccursAt(Lower(url), "podcast", j)
    requires NoLineBreak(Lower(url)[i + 9..j])
    requires !AnyMatch(VideoPatterns, Lower(url))
    ensures CategoryOf(url) == Audio
  {
    assert Matches(AudioPatterns[3], Lower(url));
  }

  /** The classification ignores ASCII letter case. */
  lemma CategoryIgnoresCase(url1: string, url2: string)
    requires Lower(url1) == Lower(url2)
    ensures CategoryOf(url1) == CategoryOf(url2)
  {
    assert |url1| == |Lower(url1)| == |url2|;
  }

  // ----- platforms -----

  /** The domain table of `getPlatform`, in its enumeration order. */
  const PlatformTable: seq<(string, string)> := [
    ("youtube.com", "YouTube"), ("youtu.be", "YouTube"), ("instagram.com", "Instagram"),
    ("twitter.com", "Twitter"), ("tiktok.com", "TikTok"), ("facebook.com", "Facebook"),
    ("linkedin.com", "LinkedIn"), ("reddit.com", "Reddit"), ("spotify.com", "Spotify"),
    ("medium.com", "Medium")]

  /** The name of the first domain of `table` that `url` contains (case-sensitively). */
  function FirstDomain(table: seq<(string, string)>, url: string): Option<string> {
    if table == [] then None
    else if Contains(url, table[0].0) then Some(table[0].1)
    else FirstDomain(table[1..], url)
  }

  /** The platform label `getPlatform` gives a URL. */
  function PlatformOf(url: string): string {
    if url == "" then "web" else FirstDomain(PlatformTable, url).GetOr("Web")
  }

  /** popup.js `getPlatform`: a loop over the domain table returning at the
      first domain the URL contains. */
  method GetPlatform(url: string) returns (name: string)
    ensures name == PlatformOf(url)
  {
    if url == "" {
      return "web";
    }
    for k := 0 to |PlatformTable|
      invariant FirstDomain(PlatformTable, url) == FirstDomain(PlatformTable[k..], url)
    {
      assert PlatformTable[k..][1..] == PlatformTable[k + 1..];
      if Contains(url, PlatformTable[k].0) {
        return PlatformTable[k].1;
      }
    }
    return "Web";
  }

  lemma {:induction false} FirstDomainIsEarliest(table: seq<(string, string)>, url: string, k: nat)
    requires k < |table| && Contains(url, table[k].0)
    requires forall m :: 0 <= m < k ==> !Contains(url, table[m].0)
    ensures FirstDomain(table, url) == Some(table[k].1)
  {
    if k > 0 {
      FirstDomainIsEarliest(table[1..], url, k - 1);
    }
  }

  lemma {:induction false} FirstDomainNone(table: seq<(string, string)>, url: string)
    ensures FirstDomain(table, url).None? <==> forall m :: 0 <= m < |table| ==> !Contains(url, table[m].0)
  {
    if table != [] {
      FirstDomainNone(table[1..], url);
      assert forall m :: 0 < m < |table| ==> table[m] == table[1..][m - 1];
    }
  }

  /** The platform label: lower-case "web" for an empty URL, the name of the
      first table domain the URL contains, and capitalised "Web" when it
      contains none. */
  lemma PlatformFirstMatch(url: string)
    ensures url == "" ==> PlatformOf(url) == "web"
    ensures (url != "" && forall m :: 0 <= m < |PlatformTable| ==> !Contains(url, PlatformTable[m].0))
              ==> PlatformOf(url) == "Web"
    ensures forall k :: 0 <= k < |PlatformTable| && Contains(url, PlatformTable[k].0)
              && (forall m :: 0 <= m < k ==> !Contains(url, PlatformTable[m].0))
              ==> PlatformOf(url) == PlatformTable[k].1
  {
    FirstDomainNone(PlatformTable, url);
    forall k | 0 <= k < |PlatformTable| && Contains(url, PlatformTable[k].0)
      && (forall m :: 0 <= m < k ==> !Contains(url, PlatformTable[m].0))
      ensures PlatformOf(url) == PlatformTable[k].1
    {
      FirstDomainIsEarliest(PlatformTable, url, k);
    }
  }

  // ----- icons -----

  function IconOf(c: Category): string {
    match c
    case Video => "\U{1F3A5}"
    case Audio => "\U{1F3B5}"
    case Image => "\U{1F5BC}\U{FE0F}"
    case Text => "\U{1F4DD}"
  }

  const FallbackIcon: string := "\U{1F4C4}"

  /** popup.js `getCategoryIcon`: the icon of a stored category label. Each of
      the four categories has its own icon, and any other label gets the page
      icon. */
  function CategoryIcon(category: string): (icon: string)
    ensures icon == FallbackIcon <==> !IsCategoryLabel(category)
    ensures forall c: Category :: category == Label(c) ==> icon == IconOf(c)
  {
    match CategoryFromLabel(category)
    case Some(c) => IconOf(c)
    case None => FallbackIcon
  }
}
