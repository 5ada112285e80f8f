/** The statistics page beneath its DOM code (stats.js): category and folder
    counts, the platform and tag frequency tables with their top entries, and
    the seven-day activity chart. The calendar is a parameter: `localDate`
    gives the local calendar date of a timestamp and `dayBefore(i)` the date
    `i` days before today. */
module Stats {
  import opened Strings
  import opened Seqs
  import opened Bookmarks

  // ----- category and folder counts -----

  /** How many bookmarks carry the category label `name`. */
  function CountCategory(bookmarks: seq<Bookmark>, name: string): (n: nat)
    ensures n <= |bookmarks|
  {
    if bookmarks == [] then 0
    else (if bookmarks[0].category == name then 1 else 0) + CountCategory(bookmarks[1..], name)
  }

  /** The numbers at the top of the statistics page. */
  datatype Statistics = Statistics(total: nat, video: nat, image: nat, audio: nat, text: nat, folders: nat)

  /** The counts `loadStatistics` shows. The folder count includes the implicit
      default folder, so it is always at least one. */
  function LoadStatistics(bookmarks: seq<Bookmark>, folders: seq<Folder>): (s: Statistics)
    ensures s.total == |bookmarks|
    ensures s.folders == |folders| + 1 && s.folders >= 1
    ensures s.video <= s.total && s.image <= s.total && s.audio <= s.total && s.text <= s.total
  {
    Statistics(
      total := |bookmarks|,
      video := CountCategory(bookmarks, "video"),
      image := CountCategory(bookmarks, "image"),
      audio := CountCategory(bookmarks, "audio"),
      text := CountCategory(bookmarks, "text"),
      folders := |folders| + 1)
  }

  predicate AllCategorized(bookmarks: seq<Bookmark>) {
    forall k :: 0 <= k < |bookmarks| ==> IsCategoryLabel(bookmarks[k].category)
  }

  /** The four category counts never add up to more than the total, and add up
      to exactly the total when, and only when, every bookmark carries one of
      the four labels. */
  lemma {:induction false} CategoryCountsSum(bookmarks: seq<Bookmark>)
    ensures var s := LoadStatistics(bookmarks, []);
      s.video + s.image + s.audio + s.text <= s.total
    ensures var s := LoadStatistics(bookmarks, []);
      s.video + s.image + s.audio + s.text == s.total <==> AllCategorized(bookmarks)
  {
    if bookmarks != [] {
      CategoryCountsSum(bookmarks[1..]);
      assert AllCategorized(bookmarks) <==>
             IsCategoryLabel(bookmarks[0].category) && AllCategorized(bookmarks[1..]) by {
        assert forall k :: 0 < k < |bookmarks| ==> bookmarks[k] == bookmarks[1..][k - 1];
      }
    }
  }

  // ----- frequency tables -----

  /** One row of a frequency table: a key and how often it was counted. */
  datatype Entry = Entry(key: string, count: nat)

  function Keys(t: seq<Entry>): (r: seq<string>)
    ensures |r| == |t| && forall k :: 0 <= k < |t| ==> r[k] == t[k].key
  {
    if t == [] then [] else [t[0].key] + Keys(t[1..])
  }

  predicate DistinctKeys(t: seq<Entry>) {
    forall i, j :: 0 <= i < j < |t| ==> Keys(t)[i] != Keys(t)[j]
  }

  /** The count a table records for `key` (0 when it has none). */
  function CountOf(t: seq<Entry>, key: string): nat {
    if t == [] then 0 else if t[0].key == key then t[0].count else CountOf(t[1..], key)
  }

  function Sum(t: seq<Entry>): nat {
    if t == [] then 0 else t[0].count + Sum(t[1..])
  }

  /** How often `x` occurs in `keys`. */
  function Occurrences(keys: seq<string>, x: string): nat {
    if keys == [] then 0
    else Occurrences(keys[..|keys| - 1], x) + (if keys[|keys| - 1] == x then 1 else 0)
  }

  /** `counts[key] = (counts[key] || 0) + 1` on a table kept in the order in
      which keys were first added: the row for `key` goes up by one, or a new
      row with count 1 is added at the end. */
  function Bump(t: seq<Entry>, key: string): (r: seq<Entry>)
    ensures Sum(r) == Sum(t) + 1
  {
    if t == [] then [Entry(key, 1)]
    else if t[0].key == key then
      var r := [Entry(key, t[0].count + 1)] + t[1..];
      assert r[1..] == t[1..];
      r
    else
      var r := [t[0]] + Bump(t[1..], key);
      assert r[1..] == Bump(t[1..], key);
      r
  }

  /** Bumping `key` adds one to its count and leaves every other count alone. */
  lemma {:induction false} BumpCount(t: seq<Entry>, key: string, x: string)
    ensures CountOf(Bump(t, key), x) == CountOf(t, x) + (if x == key then 1 else 0)
  {
    if t != [] && t[0].key != key {
      BumpCount(t[1..], key, x);
      assert Bump(t, key)[1..] == Bump(t[1..], key);
    } else if t != [] {
      assert Bump(t, key)[1..] == t[1..];
    }
  }

  /** Bumping keeps the keys and their order, and adds `key` at the end when it is new. */
  lemma {:induction false} BumpKeys(t: seq<Entry>, key: string)
    ensures Keys(Bump(t, key)) == if key in Keys(t) then Keys(t) else Keys(t) + [key]
  {
    if t != [] {
      assert Keys(t) == [t[0].key] + Keys(t[1..]);
      if t[0].key == key {
        assert Bump(t, key)[1..] == t[1..];
        assert Keys(Bump(t, key)) == [key] + Keys(t[1..]);
      } else {
        BumpKeys(t[1..], key);
        assert Bump(t, key)[1..] == Bump(t[1..], key);
        assert Keys(Bump(t, key)) == [t[0].key] + Keys(Bump(t[1..], key));
        assert key in Keys(t) <==> key in Keys(t[1..]);
      }
    }
  }

  predicate Positive(t: seq<Entry>) {
    forall k :: 0 <= k < |t| ==> t[k].count >= 1
  }

  lemma {:induction false} BumpPositive(t: seq<Entry>, key: string)
    requires Positive(t)
    ensures Positive(Bump(t, key))
  {
    if t != [] && t[0].key != key {
      BumpPositive(t[1..], key);
      assert Bump(t, key)[1..] == Bump(t[1..], key);
    }
  }

  lemma BumpDistinct(t: seq<Entry>, key: string)
    requires DistinctKeys(t)
    ensures DistinctKeys(Bump(t, key))
  {
    BumpKeys(t, key);
    var before, after := Keys(t), Keys(Bump(t, key));
    if key !in before {
      forall i, j | 0 <= i < j < |after|
        ensures after[i] != after[j]
      {
        if j == |before| {
          assert after[i] == before[i] && after[j] == key;
        } else {
          assert after[i] == before[i] && after[j] == before[j];
        }
      }
    }
  }

  /** The table built by counting `keys` one after the other; its counts add
      up to the number of keys counted. */
  function TallyOf(keys: seq<string>): (t: seq<Entry>)
    ensures Sum(t) == |keys|
  {
    if keys == [] then [] else Bump(TallyOf(keys[..|keys| - 1]), keys[|keys| - 1])
  }

  lemma TallyOfSnoc(keys: seq<string>, key: string)
    ensures TallyOf(keys + [key]) == Bump(TallyOf(keys), key)
  {
    assert (keys + [key])[..|keys|] == keys;
  }

  lemma TallyStep(before: seq<string>, keys: seq<string>, j: nat)
    requires j < |keys|
    ensures TallyOf(before + keys[..j + 1]) == Bump(TallyOf(before + keys[..j]), keys[j])
  {
    TallyOfSnoc(before + keys[..j], keys[j]);
    assert before + keys[..j] + [keys[j]] == before + keys[..j + 1];
  }

  /** Counting gives one row per distinct key, each with a positive count. */
  lemma {:induction false} TallyRows(keys: seq<string>)
    ensures DistinctKeys(TallyOf(keys)) && Positive(TallyOf(keys))
  {
    if keys != [] {
      var init := keys[..|keys| - 1];
      TallyRows(init);
      BumpDistinct(TallyOf(init), keys[|keys| - 1]);
      BumpPositive(TallyOf(init), keys[|keys| - 1]);
    }
  }

  /** Each key's count is the number of times it occurs. */
  lemma {:induction false} TallyCount(keys: seq<string>, x: string)
    ensures CountOf(TallyOf(keys), x) == Occurrences(keys, x)
  {
    if keys != [] {
      var init := keys[..|keys| - 1];
      TallyCount(init, x);
      BumpCount(TallyOf(init), keys[|keys| - 1], x);
    }
  }

  /** The table has a row for a key exactly when the key was counted. */
  lemma {:induction false} TallyKeys(keys: seq<string>, x: string)
    ensures x in Keys(TallyOf(keys)) <==> x in keys
  {
    if keys != [] {
      var init, last := keys[..|keys| - 1], keys[|keys| - 1];
      TallyKeys(init, x);
      BumpKeys(TallyOf(init), last);
      assert keys == init + [last];
      assert x in keys <==> x in init || x == last;
    }
  }

  /** Counting `keys` gives one row per distinct key, each with the number of
      times the key occurs; the counts add up to the number of keys. */
  lemma TallyFacts(keys: seq<string>)
    ensures DistinctKeys(TallyOf(keys)) && Positive(TallyOf(keys))
    ensures forall x :: CountOf(TallyOf(keys), x) == Occurrences(keys, x)
    ensures Sum(TallyOf(keys)) == |keys|
    ensures forall x :: x in Keys(TallyOf(keys)) <==> x in keys
  {
    TallyRows(keys);
    forall x
      ensures CountOf(TallyOf(keys), x) == Occurrences(keys, x)
    {
      TallyCount(keys, x);
    }
    forall x
      ensures x in Keys(TallyOf(keys)) <==> x in keys
    {
      TallyKeys(keys, x);
    }
  }

  /** In a table with distinct keys, a row's count is the count recorded for its key. */
  lemma {:induction false} CountOfRow(t: seq<Entry>, e: Entry)
    requires DistinctKeys(t) && e in t
    ensures CountOf(t, e.key) == e.count
  {
    if t[0] != e {
      assert e in t[1..];
      var j :| 0 <= j < |t[1..]| && t[1..][j] == e;
      assert Keys(t)[0] != Keys(t)[j + 1];
      assert Keys(t[1..]) == Keys(t)[1..];
      CountOfRow(t[1..], e);
    }
  }

  // ----- sorting and the top entries -----

  predicate SortedDesc(t: seq<Entry>) {
    forall i, j :: 0 <= i < j < |t| ==> t[i].count >= t[j].count
  }

  /** Puts `e` into a table sorted by count, highest first, after every row
      whose count is at least as high (so rows with equal counts keep their order). */
  function InsertDesc(t: seq<Entry>, e: Entry): seq<Entry> {
    if t == [] then [e]
    else if t[0].count >= e.count then [t[0]] + InsertDesc(t[1..], e)
    else [e] + t
  }

  lemma {:induction false} InsertDescMultiset(t: seq<Entry>, e: Entry)
    ensures multiset(InsertDesc(t, e)) == multiset(t) + multiset{e}
  {
    if t != [] && t[0].count >= e.count {
      InsertDescMultiset(t[1..], e);
      assert t == [t[0]] + t[1..];
    }
  }

  /** Inserting into a sorted table gives a sorted table. */
  lemma {:induction false} InsertDescSorted(t: seq<Entry>, e: Entry)
    requires SortedDesc(t)
    ensures SortedDesc(InsertDesc(t, e))
  {
    if t != [] && t[0].count >= e.count {
      var rest := InsertDesc(t[1..], e);
      InsertDescSorted(t[1..], e);
      InsertDescMultiset(t[1..], e);
      forall k | 0 <= k < |rest|
        ensures rest[k].count <= t[0].count
      {
        assert rest[k] in multiset(rest);
        assert rest[k] in t[1..] || rest[k] == e;
      }
      assert InsertDesc(t, e) == [t[0]] + rest;
    }
  }

  /** The order `sort((a, b) => b[1] - a[1])` gives: by count, highest first. */
  function SortDesc(t: seq<Entry>): (s: seq<Entry>)
    ensures SortedDesc(s) && multiset(s) == multiset(t) && |s| == |t|
  {
    if t == [] then []
    else
      var init := t[..|t| - 1];
      var s := InsertDesc(SortDesc(init), t[|t| - 1]);
      InsertDescSorted(SortDesc(init), t[|t| - 1]);
      InsertDescMultiset(SortDesc(init), t[|t| - 1]);
      assert t == init + [t[|t| - 1]];
      assert |multiset(s)| == |multiset(t)|;
      s
  }

  /** The first `n` rows of the table sorted by count: no more than `n` of
      them, highest count first. */
  function TopN(t: seq<Entry>, n: nat): (top: seq<Entry>)
    ensures |top| == Min(n, |t|) && SortedDesc(top)
  {
    var s := SortDesc(t);
    SortedPrefix(s, Min(n, |s|));
    s[..Min(n, |s|)]
  }

  /** A leading part of a sorted table is sorted, taken from the table, and
      at least as high as every row after it. */
  lemma SortedPrefix(s: seq<Entry>, m: nat)
    requires SortedDesc(s) && m <= |s|
    ensures SortedDesc(s[..m])
    ensures multiset(s[..m]) <= multiset(s)
    ensures forall e, x :: e in s && e !in s[..m] && x in s[..m] ==> e.count <= x.count
  {
    var r := s[..m];
    assert s == r + s[m..];
    assert multiset(s) == multiset(r) + multiset(s[m..]);
    forall e, x | e in s && e !in r && x in r
      ensures e.count <= x.count
    {
      var j :| 0 <= j < |s| && s[j] == e;
      var i :| 0 <= i < |r| && r[i] == x;
      assert j >= m;
    }
  }

  /** The top `n` rows are all from the table, and no row left out has a
      higher count than a row kept. When the table has at most `n` rows, all
      of them are kept. */
  lemma TopNFacts(t: seq<Entry>, n: nat)
    ensures multiset(TopN(t, n)) <= multiset(t)
    ensures forall e, x :: e in t && e !in TopN(t, n) && x in TopN(t, n) ==> e.count <= x.count
    ensures |t| <= n ==> multiset(TopN(t, n)) == multiset(t)
  {
    var s := SortDesc(t);
    SortedPrefix(s, Min(n, |s|));
    assert forall e :: e in t <==> e in multiset(s);
    if |t| <= n {
      assert TopN(t, n) == s;
    }
  }

  // ----- the platform breakdown -----

  /** The key a bookmark is counted under: its platform, or "Unknown" when it has none. */
  function PlatformKey(b: Bookmark): string {
    if b.platform == "" then "Unknown" else b.platform
  }

  function PlatformKeys(bookmarks: seq<Bookmark>): (keys: seq<string>)
    ensures |keys| == |bookmarks|
  {
    if bookmarks == [] then []
    else PlatformKeys(bookmarks[..|bookmarks| - 1]) + [PlatformKey(bookmarks[|bookmarks| - 1])]
  }

  /** The counting loop of stats.js `displayPlatformBreakdown`. */
  method CountPlatforms(bookmarks: seq<Bookmark>) returns (table: seq<Entry>)
    ensures table == TallyOf(PlatformKeys(bookmarks))
  {
    table := [];
    for i := 0 to |bookmarks|
      invariant table == TallyOf(PlatformKeys(bookmarks[..i]))
    {
      var platform := if bookmarks[i].platform == "" then "Unknown" else bookmarks[i].platform;
      assert bookmarks[..i + 1][..i] == bookmarks[..i];
      TallyOfSnoc(PlatformKeys(bookmarks[..i]), platform);
      table := Bump(table, platform);
    }
    assert bookmarks[..|bookmarks|] == bookmarks;
  }

  /** What a table section of the statistics page shows. */
  datatype TableView = NoEntries(message: string) | Rows(rows: seq<Entry>)

  const TopPlatforms: nat := 10
  const TopTags: nat := 15

  /** The rows of a frequency table over `keys` the page shows, top `n` of them. */
  predicate ShowsTop(rows: seq<Entry>, keys: seq<string>, n: nat) {
    && |rows| == Min(n, |TallyOf(keys)|)
    && DistinctKeys(rows)
    && SortedDesc(rows)
    && (forall e :: e in rows ==> e.count == Occurrences(keys, e.key) && e.count >= 1)
    && (forall x, e :: x in keys && x !in Keys(rows) && e in rows ==> Occurrences(keys, x) <= e.count)
  }

  /** In a table with distinct keys every row occurs once. */
  lemma {:induction false} DistinctOnce(t: seq<Entry>)
    requires DistinctKeys(t)
    ensures forall e :: multiset(t)[e] <= 1
  {
    if t != [] {
      var rest := t[1..];
      assert DistinctKeys(rest) by {
        forall i, j | 0 <= i < j < |rest|
          ensures Keys(rest)[i] != Keys(rest)[j]
        {
          assert Keys(rest)[i] == Keys(t)[i + 1] && Keys(rest)[j] == Keys(t)[j + 1];
        }
      }
      DistinctOnce(rest);
      assert t == [t[0]] + rest;
      assert multiset(rest)[t[0]] == 0 by {
        forall k | 0 <= k < |rest|
          ensures rest[k] != t[0]
        {
          assert Keys(t)[0] != Keys(t)[k + 1];
        }
      }
    }
  }

  /** A row at two positions occurs at least twice. */
  lemma TwiceCounted(s: seq<Entry>)
    ensures forall i, j :: 0 <= i < j < |s| && s[i] == s[j] ==> multiset(s)[s[i]] >= 2
  {
    forall i, j | 0 <= i < j < |s| && s[i] == s[j]
      ensures multiset(s)[s[i]] >= 2
    {
      assert s == s[..j] + s[j..];
      assert s[i] in s[..j] && s[j] in s[j..];
      assert multiset(s) == multiset(s[..j]) + multiset(s[j..]);
    }
  }

  /** Rows taken from a table with distinct keys have distinct keys. */
  lemma SubTableDistinct(t: seq<Entry>, rows: seq<Entry>)
    requires DistinctKeys(t) && multiset(rows) <= multiset(t)
    ensures DistinctKeys(rows)
  {
    DistinctOnce(t);
    TwiceCounted(rows);
    forall i, j | 0 <= i < j < |rows|
      ensures Keys(rows)[i] != Keys(rows)[j]
    {
      assert multiset(rows)[rows[i]] <= multiset(t)[rows[i]];
      assert rows[i] in multiset(t) && rows[j] in multiset(t);
      var a :| 0 <= a < |t| && t[a] == rows[i];
      var b :| 0 <= b < |t| && t[b] == rows[j];
      assert Keys(t)[a] == rows[i].key && Keys(t)[b] == rows[j].key;
    }
  }

  /** Every top row of a tally carries the number of occurrences of its key. */
  lemma TopRowsExact(keys: seq<string>, n: nat)
    ensures forall e :: e in TopN(TallyOf(keys), n) ==> e.count == Occurrences(keys, e.key) && e.count >= 1
  {
    var t := TallyOf(keys);
    TallyFacts(keys);
    TopNFacts(t, n);
    forall e | e in TopN(t, n)
      ensures e.count == Occurrences(keys, e.key) && e.count >= 1
    {
      assert e in multiset(t);
      CountOfRow(t, e);
    }
  }

  lemma KeysOfRows(rows: seq<Entry>)
    ensures forall e :: e in rows ==> e.key in Keys(rows)
  {
    forall e | e in rows
      ensures e.key in Keys(rows)
    {
      var m :| 0 <= m < |rows| && rows[m] == e;
      assert Keys(rows)[m] == e.key;
    }
  }

  /** No key left out of the top rows of a tally occurs more often than a key shown. */
  lemma TopRowsDominate(keys: seq<string>, n: nat)
    ensures forall x, e :: x in keys && x !in Keys(TopN(TallyOf(keys), n)) && e in TopN(TallyOf(keys), n) ==>
      Occurrences(keys, x) <= e.count
  {
    var t := TallyOf(keys);
    var rows := TopN(t, n);
    TallyFacts(keys);
    TopNFacts(t, n);
    KeysOfRows(rows);
    forall x, e | x in keys && x !in Keys(rows) && e in rows
      ensures Occurrences(keys, x) <= e.count
    {
      assert x in Keys(t);
      var k :| 0 <= k < |t| && Keys(t)[k] == x;
      var row := t[k];
      assert row in t && row.key == x && row !in rows;
      CountOfRow(t, row);
    }
  }

  lemma TopOfTally(keys: seq<string>, n: nat)
    ensures ShowsTop(TopN(TallyOf(keys), n), keys, n)
  {
    var t := TallyOf(keys);
    TallyFacts(keys);
    TopNFacts(t, n);
    SubTableDistinct(t, TopN(t, n));
    TopRowsExact(keys, n);
    TopRowsDominate(keys, n);
  }

  /** stats.js `displayPlatformBreakdown`: the empty state when there are no
      bookmarks, otherwise at most ten platforms, highest count first, each
      with the number of bookmarks counted under it, and no platform left out
      counted more often than one shown. */
  method DisplayPlatformBreakdown(bookmarks: seq<Bookmark>) returns (v: TableView)
    ensures v.NoEntries? <==> bookmarks == []
    ensures v.Rows? ==> |v.rows| <= TopPlatforms && ShowsTop(v.rows, PlatformKeys(bookmarks), TopPlatforms)
    ensures v.Rows? ==> v.rows == TopN(TallyOf(PlatformKeys(bookmarks)), TopPlatforms)
  {
    var table := CountPlatforms(bookmarks);
    var sorted := TopN(table, TopPlatforms);
    TopOfTally(PlatformKeys(bookmarks), TopPlatforms);
    TallyFacts(PlatformKeys(bookmarks));
    TopNFacts(table, TopPlatforms);
    if bookmarks != [] {
      assert PlatformKeys(bookmarks)[0] in Keys(table);
    }
    if |sorted| == 0 {
      return NoEntries("No platforms yet. Start saving bookmarks! \U{1F4CC}");
    }
    return Rows(sorted);
  }

  /** Before the cut to ten, the platform counts add up to the number of
      bookmarks, and "Unknown" counts the bookmarks without a platform together
      with any stored under the name "Unknown". */
  lemma {:induction false} PlatformCounts(bookmarks: seq<Bookmark>)
    ensures Sum(TallyOf(PlatformKeys(bookmarks))) == |bookmarks|
    ensures CountOf(TallyOf(PlatformKeys(bookmarks)), "Unknown")
         == |set k | 0 <= k < |bookmarks| && bookmarks[k].platform in {"", "Unknown"}|
  {
    TallyFacts(PlatformKeys(bookmarks));
    UnknownCount(bookmarks);
  }

  lemma {:induction false} UnknownCount(bookmarks: seq<Bookmark>)
    ensures Occurrences(PlatformKeys(bookmarks), "Unknown")
         == |set k | 0 <= k < |bookmarks| && bookmarks[k].platform in {"", "Unknown"}|
  {
    if bookmarks != [] {
      var n := |bookmarks| - 1;
      var init := bookmarks[..n];
      UnknownCount(init);
      var s0 := set k | 0 <= k < |init| && init[k].platform in {"", "Unknown"};
      var s1 := set k | 0 <= k < |bookmarks| && bookmarks[k].platform in {"", "Unknown"};
      assert PlatformKeys(bookmarks)[..n] == PlatformKeys(init);
      if bookmarks[n].platform in {"", "Unknown"} {
        assert s1 == s0 + {n};
      } else {
        assert s1 == s0;
      }
    }
  }

  // ----- the tag table -----

  /** Every tag of every bookmark, in order. */
  function TagKeys(bookmarks: seq<Bookmark>): seq<string> {
    if bookmarks == [] then []
    else
      var last := bookmarks[|bookmarks| - 1];
      TagKeys(bookmarks[..|bookmarks| - 1]) + (if |last.tags| > 0 then last.tags else [])
  }

  function TotalTags(bookmarks: seq<Bookmark>): nat {
    if bookmarks == [] then 0 else |bookmarks[0].tags| + TotalTags(bookmarks[1..])
  }

  /** The counting loops of stats.js `displayTopTags`: every tag of every
      bookmark adds one to its row. */
  method CountTags(bookmarks: seq<Bookmark>) returns (table: seq<Entry>)
    ensures table == TallyOf(TagKeys(bookmarks))
  {
    table := [];
    for i := 0 to |bookmarks|
      invariant table == TallyOf(TagKeys(bookmarks[..i]))
    {
      var tags := bookmarks[i].tags;
      ghost var before := TagKeys(bookmarks[..i]);
      TagKeysStep(bookmarks, i);
      if |tags| > 0 {
        assert before + tags[..0] == before;
        for j := 0 to |tags|
          invariant table == TallyOf(before + tags[..j])
        {
          TallyStep(before, tags, j);
          table := Bump(table, tags[j]);
        }
        assert tags[..|tags|] == tags;
      } else {
        assert before + [] == before;
      }
    }
    assert bookmarks[..|bookmarks|] == bookmarks;
  }

  lemma TagKeysStep(bookmarks: seq<Bookmark>, i: nat)
    requires i < |bookmarks|
    ensures TagKeys(bookmarks[..i + 1])
         == TagKeys(bookmarks[..i]) + (if |bookmarks[i].tags| > 0 then bookmarks[i].tags else [])
  {
    assert bookmarks[..i + 1][..i] == bookmarks[..i];
  }

  /** `TagKeys` holds exactly as many tags as the bookmarks have together. */
  lemma {:induction false} TagKeysLength(bookmarks: seq<Bookmark>)
    ensures |TagKeys(bookmarks)| == TotalTags(bookmarks)
  {
    if bookmarks != [] {
      var n := |bookmarks| - 1;
      TagKeysLength(bookmarks[..n]);
      TotalTagsSnoc(bookmarks[..n], bookmarks[n]);
      assert bookmarks[..n] + [bookmarks[n]] == bookmarks;
    }
  }

  lemma {:induction false} TotalTagsSnoc(bookmarks: seq<Bookmark>, b: Bookmark)
    ensures TotalTags(bookmarks + [b]) == TotalTags(bookmarks) + |b.tags|
  {
    if bookmarks != [] {
      assert (bookmarks + [b])[1..] == bookmarks[1..] + [b];
      TotalTagsSnoc(bookmarks[1..], b);
    }
  }

  /** Before the cut to fifteen, the tag counts add up to the number of tags of
      all bookmarks together; a bookmark without tags adds nothing. */
  lemma TagCountsSum(bookmarks: seq<Bookmark>)
    ensures Sum(TallyOf(TagKeys(bookmarks))) == TotalTags(bookmarks)
  {
    TallyFacts(TagKeys(bookmarks));
    TagKeysLength(bookmarks);
  }

  /** stats.js `displayTopTags`: the empty state when no bookmark has a tag,
      otherwise at most fifteen tags, highest count first, each with how often
      it occurs, and no tag left out occurring more often than one shown. */
  method DisplayTopTags(bookmarks: seq<Bookmark>) returns (v: TableView)
    ensures v.NoEntries? <==> TagKeys(bookmarks) == []
    ensures v.Rows? ==> |v.rows| <= TopTags && ShowsTop(v.rows, TagKeys(bookmarks), TopTags)
    ensures v.Rows? ==> v.rows == TopN(TallyOf(TagKeys(bookmarks)), TopTags)
  {
    var table := CountTags(bookmarks);
    var sorted := TopN(table, TopTags);
    TopOfTally(TagKeys(bookmarks), TopTags);
    TallyFacts(TagKeys(bookmarks));
    TopNFacts(table, TopTags);
    if TagKeys(bookmarks) != [] {
      assert TagKeys(bookmarks)[0] in Keys(table);
    }
    if |sorted| == 0 {
      return NoEntries("No tags yet. Add tags to your bookmarks! \U{1F3F7}\U{FE0F}");
    }
    return Rows(sorted);
  }

  // ----- recent activity -----

  /** A local calendar date: the year, month and day of the month. */
  datatype CivilDate = CivilDate(year: int, month: int, day: int)

  /** stats.js `isSameDay`: two dates are the same day exactly when they are
      the same calendar date. */
  predicate IsSameDay(d1: CivilDate, d2: CivilDate)
    ensures IsSameDay(d1, d2) <==> d1 == d2
  {
    d1.year == d2.year && d1.month == d2.month && d1.day == d2.day
  }

  /** One bar of the chart: its date, how many days before today it is (what
      its label is made from) and how many bookmarks were saved that day. */
  datatype DayBucket = DayBucket(date: CivilDate, daysAgo: nat, count: nat)

  /** What the activity section shows: the empty state or seven bars and the
      count the bar widths are scaled by. */
  datatype ActivityView = NoActivity(message: string) | Chart(days: seq<DayBucket>, maxCount: nat)

  /** How many bookmarks were saved on local date `d`. */
  function CountOnDay(bookmarks: seq<Bookmark>, localDate: int -> CivilDate, d: CivilDate): (n: nat)
    ensures n <= |bookmarks|
  {
    if bookmarks == [] then 0
    else
      var last := bookmarks[|bookmarks| - 1];
      CountOnDay(bookmarks[..|bookmarks| - 1], localDate, d) + (if IsSameDay(localDate(last.timestamp), d) then 1 else 0)
  }

  /** stats.js `displayRecentActivity`: the empty state when there are no
      bookmarks; otherwise seven buckets, from six days ago up to today, each
      counting the bookmarks saved on its date, and a scale that is the
      largest count but never less than one. */
  method DisplayRecentActivity(bookmarks: seq<Bookmark>, localDate: int -> CivilDate, dayBefore: nat -> CivilDate)
    returns (v: ActivityView)
    ensures v.NoActivity? <==> bookmarks == []
    ensures v.Chart? ==> |v.days| == 7
    ensures v.Chart? ==> forall k :: 0 <= k < |v.days| ==>
      && v.days[k].daysAgo == 6 - k && v.days[k].date == dayBefore(6 - k)
      && v.days[k].count == CountOnDay(bookmarks, localDate, v.days[k].date)
    ensures v.Chart? ==> v.maxCount >= 1 && forall k :: 0 <= k < |v.days| ==> v.days[k].count <= v.maxCount
    ensures v.Chart? && v.maxCount > 1 ==> exists k :: 0 <= k < |v.days| && v.days[k].count == v.maxCount
  {
    if |bookmarks| == 0 {
      return NoActivity("No activity yet. Start saving bookmarks! \U{1F4CA}");
    }
    var days: seq<DayBucket> := [];
    var i: int := 6;
    while i >= 0
      invariant -1 <= i <= 6 && |days| == 6 - i
      invariant forall k :: 0 <= k < |days| ==> days[k] == DayBucket(dayBefore(6 - k), 6 - k, 0)
    {
      days := days + [DayBucket(dayBefore(i), i, 0)];
      i := i - 1;
    }
    for b := 0 to |bookmarks|
      invariant |days| == 7
      invariant forall k :: 0 <= k < 7 ==>
        && days[k].daysAgo == 6 - k && days[k].date == dayBefore(6 - k)
        && days[k].count == CountOnDay(bookmarks[..b], localDate, days[k].date)
    {
      var bookmarkDate := localDate(bookmarks[b].timestamp);
      assert bookmarks[..b + 1][..b] == bookmarks[..b];
      for d := 0 to 7
        invariant |days| == 7
        invariant forall k :: 0 <= k < 7 ==> days[k].daysAgo == 6 - k && days[k].date == dayBefore(6 - k)
        invariant forall k :: 0 <= k < d ==> days[k].count == CountOnDay(bookmarks[..b + 1], localDate, days[k].date)
        invariant forall k :: d <= k < 7 ==> days[k].count == CountOnDay(bookmarks[..b], localDate, days[k].date)
      {
        if IsSameDay(bookmarkDate, days[d].date) {
          days := days[d := days[d].(count := days[d].count + 1)];
        }
      }
    }
    assert bookmarks[..|bookmarks|] == bookmarks;
    var maxCount := 1;
    for k := 0 to 7
      invariant maxCount >= 1 && forall m :: 0 <= m < k ==> days[m].count <= maxCount
      invariant maxCount > 1 ==> exists m :: 0 <= m < k && days[m].count == maxCount
    {
      if days[k].count > maxCount {
        maxCount := days[k].count;
      }
    }
    return Chart(days, maxCount);
  }
}
