/** The hashtag logic of manager/tools/hashtag_analyzer/scrapper.py: how each source's
    scraped texts become scored `HashtagData`, how the three sources are merged, and how
    `ContentAnalyzer` builds its search URLs and collects content per hashtag.

    The browser is an oracle. A page that could not be loaded (no driver, a failed `get`, a
    wait that timed out) is `None`; what a CSS selector finds is the list of the elements'
    texts, or `None` when `find_elements` raised. */
module Scrapper {
  import opened Base
  import opened Text
  import opened Seqs
  import opened Sorting

  /** `HashtagData` */
  datatype HashtagData = HashtagData(hashtag: string, platform: string, trendScore: Option<int>,
                                     category: Option<string>)
  {
    /** `trend_score or 0`: a missing score (and a zero one) ranks as 0. */
    function Score(): int
    {
      trendScore.GetOr(0)
    }
  }

  // ---------------------------------------------------------------- position scores

  /** The entries a scoring loop appends: the element at position `i` of `items`, when `tag`
      accepts it, gives a hashtag scored `top - i`. */
  function ScoredEntries(items: seq<string>, top: int, tag: string -> Option<string>,
                         platform: string, category: string): (r: seq<HashtagData>)
    ensures |r| <= |items|
    ensures forall k :: 0 <= k < |r| ==>
      r[k].platform == platform && r[k].category == Some(category) && r[k].trendScore.Some?
      && top - |items| < r[k].Score() <= top
    ensures forall k :: 0 <= k < |r| ==> tag(items[top - r[k].Score()]) == Some(r[k].hashtag)
    ensures forall a, b :: 0 <= a < b < |r| ==> r[a].Score() > r[b].Score()
  {
    if items == [] then []
    else
      var init := ScoredEntries(items[..|items| - 1], top, tag, platform, category);
      match tag(items[|items| - 1])
      case None => init
      case Some(h) => init + [HashtagData(h, platform, Some(top - (|items| - 1)), Some(category))]
  }

  /** Every accepted element has its entry, found by its score. */
  lemma {:induction false} ScoredEntriesComplete(items: seq<string>, top: int, tag: string -> Option<string>,
                                                 platform: string, category: string, i: nat)
    requires i < |items| && tag(items[i]).Some?
    ensures exists k :: 0 <= k < |ScoredEntries(items, top, tag, platform, category)| &&
                        ScoredEntries(items, top, tag, platform, category)[k].Score() == top - i
  {
    var init := items[..|items| - 1];
    if i < |items| - 1 {
      ScoredEntriesComplete(init, top, tag, platform, category, i);
      var k :| 0 <= k < |ScoredEntries(init, top, tag, platform, category)|
        && ScoredEntries(init, top, tag, platform, category)[k].Score() == top - i;
      assert ScoredEntries(items, top, tag, platform, category)[k]
          == ScoredEntries(init, top, tag, platform, category)[k];
    } else {
      var k := |ScoredEntries(init, top, tag, platform, category)|;
      assert ScoredEntries(items, top, tag, platform, category)[k].Score() == top - i;
    }
  }

  /** The `for i, element in enumerate(items)` loops that append scored hashtags. */
  method ScoreElements(items: seq<string>, top: int, tag: string -> Option<string>,
                       platform: string, category: string)
    returns (hashtags: seq<HashtagData>)
    ensures hashtags == ScoredEntries(items, top, tag, platform, category)
  {
    hashtags := [];
    for i := 0 to |items|
      invariant hashtags == ScoredEntries(items[..i], top, tag, platform, category)
    {
      assert items[..i + 1][..i] == items[..i];
      match tag(items[i])
      case Some(h) =>
        hashtags := hashtags + [HashtagData(h, platform, Some(top - i), Some(category))];
      case None =>
    }
    assert items[..|items|] == items;
  }

  // ---------------------------------------------------------------- Google Trends

  /** `[\w\s]`: what `re.sub(r'[^\w\s]', '', text)` keeps. */
  predicate IsWordOrSpace(c: char) { IsWordChar(c) || IsSpace(c) }

  /** A character a Google hashtag may hold after its `#`. */
  predicate IsTrendTagChar(c: char) { IsWordOrSpace(c) && c != ' ' && !('A' <= c <= 'Z') }

  /** `'#' + re.sub(r'[^\w\s]', '', text).replace(' ', '').lower()` */
  function GoogleHashtag(text: string): (h: string)
    ensures |h| >= 1 && h[0] == '#'
    ensures forall i :: 1 <= i < |h| ==> IsTrendTagChar(h[i])
  {
    var kept := Keep(text, IsWordOrSpace);
    var joined := RemoveChar(kept, ' ');
    assert forall i :: 0 <= i < |joined| ==> IsWordOrSpace(joined[i]) && joined[i] != ' ';
    "#" + Lower(joined)
  }

  /** Normalising the text of a Google hashtag gives the hashtag back. */
  lemma GoogleHashtagIdempotent(text: string)
    ensures GoogleHashtag(GoogleHashtag(text)[1..]) == GoogleHashtag(text)
  {
    var body := GoogleHashtag(text)[1..];
    assert forall i :: 0 <= i < |body| ==> IsTrendTagChar(body[i]) by {
      forall i | 0 <= i < |body| ensures IsTrendTagChar(body[i]) {
        assert body[i] == GoogleHashtag(text)[i + 1];
      }
    }
    KeepAll(body, IsWordOrSpace);
    RemoveCharAbsent(body, ' ');
    LowerNoUpper(body);
  }

  /** `trend_text = element.text.strip()` and `if trend_text:` */
  function GoogleTag(text: string): (r: Option<string>)
    ensures r.Some? ==> IsGoogleHashtag(r.value)
  {
    var t := Strip(text);
    if t == [] then None else Some(GoogleHashtag(t))
  }

  /** `get_google_trends_hashtags`: the first 20 `summary-text` elements, scored `20 - i`. */
  method GoogleTrendsHashtags(elements: Option<seq<string>>) returns (hashtags: seq<HashtagData>)
    ensures elements.None? ==> hashtags == []
    ensures elements.Some? ==>
      hashtags == ScoredEntries(Take(elements.value, 20), 20, GoogleTag, "google_trends", "trending")
  {
    hashtags := [];
    if elements.Some? {
      hashtags := ScoreElements(Take(elements.value, 20), 20, GoogleTag, "google_trends", "trending");
    }
  }

  /** Every hashtag of the entries has a property that every accepted tag has. */
  lemma ScoredEntriesTags(items: seq<string>, top: int, tag: string -> Option<string>,
                          platform: string, category: string, ok: string -> bool)
    requires forall t :: tag(t).Some? ==> ok(tag(t).value)
    ensures forall k :: 0 <= k < |ScoredEntries(items, top, tag, platform, category)| ==>
      ok(ScoredEntries(items, top, tag, platform, category)[k].hashtag)
  {
    var r := ScoredEntries(items, top, tag, platform, category);
    forall k | 0 <= k < |r| ensures ok(r[k].hashtag) {
      assert tag(items[top - r[k].Score()]) == Some(r[k].hashtag);
    }
  }

  /** A Google hashtag: `#`, then lower-case word and non-blank space characters. */
  predicate IsGoogleHashtag(h: string)
  {
    |h| >= 1 && h[0] == '#' && forall i :: 1 <= i < |h| ==> IsTrendTagChar(h[i])
  }

  /** A Google hashtag has no blank. */
  lemma GoogleHashtagNoBlank(h: string)
    requires IsGoogleHashtag(h)
    ensures ' ' !in h
  {
    forall i | 0 <= i < |h|
      ensures h[i] != ' '
    {
      if i >= 1 {
        assert IsTrendTagChar(h[i]);
      }
    }
  }

  /** At most 20 entries, scored within 1..20 and strictly decreasing, each a Google hashtag. */
  lemma GoogleTrendsShape(elements: seq<string>)
    ensures |ScoredEntries(Take(elements, 20), 20, GoogleTag, "google_trends", "trending")| <= 20
    ensures forall k :: 0 <= k < |ScoredEntries(Take(elements, 20), 20, GoogleTag, "google_trends", "trending")| ==>
      var e := ScoredEntries(Take(elements, 20), 20, GoogleTag, "google_trends", "trending")[k];
      1 <= e.Score() <= 20 && IsGoogleHashtag(e.hashtag)
  {
    ScoredEntriesTags(Take(elements, 20), 20, GoogleTag, "google_trends", "trending", IsGoogleHashtag);
  }

  // ---------------------------------------------------------------- TikTok discover page

  /** The four CSS selectors, in the order they are tried. */
  const DiscoverSelectors: seq<string> :=
    ["[data-e2e=\"discover-hashtag\"]", ".css-1g95xhm-StyledLink", "[href*=\"/tag/\"]", ".discover-hashtag"]

  /** The discover page: what each selector finds, and the page source. */
  datatype DiscoverPage = DiscoverPage(find: string -> Option<seq<string>>, source: string)

  /** `text = element.text.strip()` and `if text and text.startswith('#'):` */
  function DiscoverTag(text: string): (r: Option<string>)
    ensures r.Some? ==> |r.value| >= 1 && r.value[0] == '#'
  {
    var t := Strip(text);
    if StartsWith(t, "#") then Some(t) else None
  }

  /** The entries of one selector: its first 15 elements, scored `15 - i`. */
  function SelectorEntries(found: Option<seq<string>>): seq<HashtagData>
  {
    match found
    case None => []
    case Some(texts) => ScoredEntries(Take(texts, 15), 15, DiscoverTag, "tiktok", "discover")
  }

  /** The entries of the first selector, in order, that yields any. */
  function SelectorScan(find: string -> Option<seq<string>>, selectors: seq<string>): seq<HashtagData>
  {
    if selectors == [] then []
    else if SelectorEntries(find(selectors[0])) != [] then SelectorEntries(find(selectors[0]))
    else SelectorScan(find, selectors[1..])
  }

  /** The selector loop of `get_tiktok_hashtags`, which stops at the first selector that
      produced a hashtag; a selector whose lookup raised is skipped. */
  method ScanSelectors(find: string -> Option<seq<string>>, selectors: seq<string>)
    returns (hashtags: seq<HashtagData>)
    ensures hashtags == SelectorScan(find, selectors)
  {
    hashtags := [];
    var j := 0;
    while j < |selectors| && hashtags == []
      invariant j <= |selectors|
      invariant hashtags == [] ==> SelectorScan(find, selectors) == SelectorScan(find, selectors[j..])
      invariant hashtags != [] ==> hashtags == SelectorScan(find, selectors)
    {
      assert selectors[j..][1..] == selectors[j + 1..];
      var found := find(selectors[j]);
      if found.Some? {
        hashtags := ScoreElements(Take(found.value, 15), 15, DiscoverTag, "tiktok", "discover");
      }
      j := j + 1;
    }
  }

  /** A discover hashtag starts with `#`. */
  predicate IsTag(h: string) { |h| >= 1 && h[0] == '#' }

  /** At most 15 entries, scored within 1..15 and strictly decreasing, each starting with `#`. */
  lemma {:induction false} SelectorScanShape(find: string -> Option<seq<string>>, selectors: seq<string>)
    ensures |SelectorScan(find, selectors)| <= 15
    ensures forall e :: e in SelectorScan(find, selectors) ==>
      1 <= e.Score() <= 15 && e.platform == "tiktok" && IsTag(e.hashtag)
    ensures forall a, b :: 0 <= a < b < |SelectorScan(find, selectors)| ==>
      SelectorScan(find, selectors)[a].Score() > SelectorScan(find, selectors)[b].Score()
  {
    if selectors != [] {
      if SelectorEntries(find(selectors[0])) != [] {
        SelectorEntriesShape(find(selectors[0]));
      } else {
        SelectorScanShape(find, selectors[1..]);
      }
    }
  }

  /** What one selector yields has the shape of the discover entries. */
  lemma SelectorEntriesShape(found: Option<seq<string>>)
    ensures |SelectorEntries(found)| <= 15
    ensures forall e :: e in SelectorEntries(found) ==>
      1 <= e.Score() <= 15 && e.platform == "tiktok" && IsTag(e.hashtag)
    ensures forall a, b :: 0 <= a < b < |SelectorEntries(found)| ==>
      SelectorEntries(found)[a].Score() > SelectorEntries(found)[b].Score()
  {
    if found.Some? {
      ScoredEntriesTags(Take(found.value, 15), 15, DiscoverTag, "tiktok", "discover", IsTag);
    }
  }

  /** `re.findall(r'#[a-zA-Z0-9_]+', text)`: each `#` followed by a word character starts a
      match that runs over the maximal word run; scanning resumes after it. The page-source
      pattern `#[a-zA-Z0-9_]+(?:[a-zA-Z0-9_]*[a-zA-Z0-9])?` finds the same matches: its greedy
      run leaves nothing for the optional group. */
  function FindTags(s: string): (tags: seq<string>)
    ensures forall k :: 0 <= k < |tags| ==>
      |tags[k]| >= 2 && tags[k][0] == '#' && AllChars(tags[k][1..], IsWordChar)
    decreases |s|
  {
    if s == [] then []
    else if s[0] == '#' && |s| > 1 && IsWordChar(s[1]) then
      var n := RunLength(s[1..], IsWordChar);
      assert s[..n + 1][1..] == s[1..][..n];
      [s[..n + 1]] + FindTags(s[n + 1..])
    else FindTags(s[1..])
  }

  /** A word run after `#`, followed by anything that is not a word character, is found as
      one tag. */
  lemma FindTagsTag(w: string, rest: string)
    requires |w| >= 1 && AllChars(w, IsWordChar)
    requires rest == [] || !IsWordChar(rest[0])
    ensures FindTags("#" + w + rest) == ["#" + w] + FindTags(rest)
  {
    var s := "#" + w + rest;
    assert s[1..] == w + rest;
    RunLengthStops(w, rest, IsWordChar);
    assert s[..|w| + 1] == "#" + w;
    assert s[|w| + 1..] == rest;
  }

  /** `order` is one iteration order of `set(found)`: each distinct element once. */
  ghost predicate Listing(order: seq<string>, found: seq<string>)
  {
    (forall a, b :: 0 <= a < b < |order| ==> order[a] != order[b])
    && (forall x :: x in order <==> x in found)
  }

  /** Some iteration order of a finite set. */
  lemma {:induction false} SetListing(s: set<string>) returns (q: seq<string>)
    ensures forall a, b :: 0 <= a < b < |q| ==> q[a] != q[b]
    ensures forall x :: x in q <==> x in s
    ensures s == {} ==> q == []
    decreases |s|
  {
    if s == {} {
      q := [];
    } else {
      var x :| x in s;
      var q' := SetListing(s - {x});
      q := [x] + q';
    }
  }

  /** `if len(hashtag) > 2:` */
  function LongTag(h: string): Option<string>
  {
    if |h| > 2 then Some(h) else None
  }

  /** The page-source fallback: the first ten elements of `list(set(found))`, those longer
      than two characters scored `10 - i`. Python fixes no order for a set; the loop takes its
      elements in whatever order the set yields them. */
  method PageSourceHashtags(found: seq<string>) returns (hashtags: seq<HashtagData>)
    ensures exists order :: Listing(order, found) &&
                            hashtags == ScoredEntries(Take(order, 10), 10, LongTag, "tiktok", "extracted")
  {
    var remaining := set h | h in found;
    ghost var order: seq<string> := [];
    hashtags := [];
    var i := 0;
    while remaining != {} && i < 10
      invariant i == |order| <= 10
      invariant forall a, b :: 0 <= a < b < |order| ==> order[a] != order[b]
      invariant forall x :: x in order ==> x in found && x !in remaining
      invariant forall x :: x in remaining ==> x in found
      invariant forall x :: x in found ==> x in order || x in remaining
      invariant hashtags == ScoredEntries(order, 10, LongTag, "tiktok", "extracted")
      decreases 10 - i
    {
      var h :| h in remaining;
      assert (order + [h])[..|order|] == order;
      order := order + [h];
      remaining := remaining - {h};
      if |h| > 2 {
        hashtags := hashtags + [HashtagData(h, "tiktok", Some(10 - i), Some("extracted"))];
      }
      i := i + 1;
    }
    ghost var all := CompleteListing(order, remaining, found);
    assert Take(all, 10) == order;
  }

  /** A listing started as `order`, with `remaining` still to come, completes to a listing of
      `found` that begins with `order`. */
  lemma CompleteListing(order: seq<string>, remaining: set<string>, found: seq<string>)
    returns (all: seq<string>)
    requires forall a, b :: 0 <= a < b < |order| ==> order[a] != order[b]
    requires forall x :: x in order ==> x in found && x !in remaining
    requires forall x :: x in remaining ==> x in found
    requires forall x :: x in found ==> x in order || x in remaining
    ensures Listing(all, found) && |all| >= |order| && all[..|order|] == order
    ensures remaining == {} ==> all == order
  {
    var rest := SetListing(remaining);
    all := order + rest;
    if remaining == {} {
      assert all == order;
    }
    forall a, b | 0 <= a < b < |all| ensures all[a] != all[b] {
      if b >= |order| {
        assert all[b] == rest[b - |order|] && all[b] in remaining;
        if a >= |order| {
          assert all[a] == rest[a - |order|];
        } else {
          assert all[a] == order[a] && all[a] !in remaining;
        }
      }
    }
    assert forall x :: x in all <==> x in order || x in rest;
  }

  /** `get_tiktok_hashtags`: the selector scan, and the page-source fallback only when the scan
      found nothing. */
  method TikTokHashtags(page: Option<DiscoverPage>) returns (hashtags: seq<HashtagData>)
    ensures page.None? ==> hashtags == []
    ensures page.Some? && SelectorScan(page.value.find, DiscoverSelectors) != [] ==>
      hashtags == SelectorScan(page.value.find, DiscoverSelectors)
    ensures page.Some? && SelectorScan(page.value.find, DiscoverSelectors) == [] ==>
      exists order :: Listing(order, FindTags(page.value.source))
        && hashtags == ScoredEntries(Take(order, 10), 10, LongTag, "tiktok", "extracted")
  {
    hashtags := [];
    if page.Some? {
      hashtags := ScanSelectors(page.value.find, DiscoverSelectors);
      if hashtags == [] {
        hashtags := PageSourceHashtags(FindTags(page.value.source));
      }
    }
  }

  /** The fallback's entries, whatever the set order: at most ten, distinct, each a tag of the
      page longer than two characters, scored within 1..10 and strictly decreasing. */
  lemma ExtractedShape(order: seq<string>, found: seq<string>)
    requires Listing(order, found)
    ensures |ScoredEntries(Take(order, 10), 10, LongTag, "tiktok", "extracted")| <= 10
    ensures forall e :: e in ScoredEntries(Take(order, 10), 10, LongTag, "tiktok", "extracted") ==>
      1 <= e.Score() <= 10 && e.hashtag in found && |e.hashtag| > 2
    ensures var r := ScoredEntries(Take(order, 10), 10, LongTag, "tiktok", "extracted");
      forall a, b :: 0 <= a < b < |r| ==> r[a].hashtag != r[b].hashtag
  {
    var items := Take(order, 10);
    var r := ScoredEntries(items, 10, LongTag, "tiktok", "extracted");
    forall k | 0 <= k < |r| ensures r[k].hashtag == items[10 - r[k].Score()] && |r[k].hashtag| > 2 {
      assert LongTag(items[10 - r[k].Score()]) == Some(r[k].hashtag);
    }
  }

  /** When the page has at most ten distinct tags, the fallback keeps every one longer than two
      characters. */
  lemma ExtractedComplete(order: seq<string>, found: seq<string>, x: string)
    requires Listing(order, found) && |order| <= 10 && x in found && |x| > 2
    ensures exists k :: 0 <= k < |ScoredEntries(Take(order, 10), 10, LongTag, "tiktok", "extracted")| &&
                        ScoredEntries(Take(order, 10), 10, LongTag, "tiktok", "extracted")[k].hashtag == x
  {
    var items := Take(order, 10);
    assert items == order;
    var r := ScoredEntries(items, 10, LongTag, "tiktok", "extracted");
    assert x in order;
    var i :| 0 <= i < |items| && items[i] == x;
    assert LongTag(items[i]) == Some(x);
    ScoredEntriesComplete(items, 10, LongTag, "tiktok", "extracted", i);
    var k :| 0 <= k < |r| && r[k].Score() == 10 - i;
    assert LongTag(items[i]) == Some(r[k].hashtag);
  }

  // ---------------------------------------------------------------- YouTube trending videos

  /** Every tag found in the descriptions that were read, in reading order. A video whose
      description could not be read (no link, no description element, or an exception) is
      `None`. */
  function AllTags(descriptions: seq<Option<string>>): seq<string>
  {
    if descriptions == [] then []
    else
      AllTags(descriptions[..|descriptions| - 1])
      + match descriptions[|descriptions| - 1]
        case None => []
        case Some(d) => FindTags(d)
  }

  /** `hashtag_counts` after reading `seen`: its keys in insertion order, and for each the
      number of its occurrences. */
  ghost predicate Tally(seen: seq<string>, keys: seq<string>, counts: map<string, nat>)
  {
    keys == Distinct(seen)
    && (forall h :: h in counts <==> h in seen)
    && (forall h :: h in counts ==> counts[h] == multiset(seen)[h])
  }

  /** `hashtag_counts[h] = hashtag_counts.get(h, 0) + 1`, on the dictionary's keys (in
      insertion order) and values. */
  function Bump(keys: seq<string>, counts: map<string, nat>, h: string): (seq<string>, map<string, nat>)
  {
    if h in counts then (keys, counts[h := counts[h] + 1]) else (keys + [h], counts[h := 1])
  }

  /** One more occurrence of `h` is counted by `Bump`. */
  lemma TallyStep(seen: seq<string>, keys: seq<string>, counts: map<string, nat>, h: string)
    requires Tally(seen, keys, counts)
    ensures Tally(seen + [h], Bump(keys, counts, h).0, Bump(keys, counts, h).1)
  {
    var after := seen + [h];
    assert after[..|seen|] == seen;
    assert multiset(after) == multiset(seen) + multiset{h};
    assert forall x :: x in after <==> x in seen || x == h;
    if h in Distinct(seen) {
      var i :| 0 <= i < |Distinct(seen)| && Distinct(seen)[i] == h;
      assert h in seen;
    }
    if h in seen {
      var i :| 0 <= i < |seen| && seen[i] == h;
      assert h in Distinct(seen);
    }
  }

  /** The step of the counting loop over `tags`. */
  lemma TallyNext(seen: seq<string>, tags: seq<string>, j: nat, keys: seq<string>, counts: map<string, nat>)
    requires j < |tags| && Tally(seen + tags[..j], keys, counts)
    ensures Tally(seen + tags[..j + 1], Bump(keys, counts, tags[j]).0, Bump(keys, counts, tags[j]).1)
  {
    assert seen + tags[..j + 1] == (seen + tags[..j]) + [tags[j]];
    TallyStep(seen + tags[..j], keys, counts, tags[j]);
  }

  /** `for hashtag in found_hashtags: hashtag_counts[hashtag] = hashtag_counts.get(hashtag, 0) + 1` */
  method CountTags(tags: seq<string>, keys: seq<string>, counts: map<string, nat>, ghost seen: seq<string>)
    returns (keys': seq<string>, counts': map<string, nat>)
    requires Tally(seen, keys, counts)
    ensures Tally(seen + tags, keys', counts')
  {
    keys', counts' := keys, counts;
    assert seen + tags[..0] == seen;
    for j := 0 to |tags|
      invariant Tally(seen + tags[..j], keys', counts')
    {
      TallyNext(seen, tags, j, keys', counts');
      keys', counts' := Bump(keys', counts', tags[j]).0, Bump(keys', counts', tags[j]).1;
    }
    assert tags[..|tags|] == tags;
  }

  /** `hashtag_counts.items()`: each distinct tag with its number of occurrences, in
      first-occurrence order. */
  function TagCounts(tags: seq<string>): (items: seq<(string, nat)>)
    ensures |items| == |Distinct(tags)|
    ensures forall i :: 0 <= i < |items| ==> items[i] == (Distinct(tags)[i], multiset(tags)[Distinct(tags)[i]])
  {
    var keys := Distinct(tags);
    seq(|keys|, i requires 0 <= i < |keys| => (keys[i], multiset(tags)[keys[i]]))
  }

  /** The sort key `lambda x: x[1]` */
  function CountOf(item: (string, nat)): int
  {
    item.1
  }

  /** `HashtagData(hashtag=hashtag, platform='youtube', trend_score=count, ...)` for each item. */
  function YouTubeEntries(items: seq<(string, nat)>): (r: seq<HashtagData>)
    ensures |r| == |items|
    ensures forall i :: 0 <= i < |items| ==>
      r[i] == HashtagData(items[i].0, "youtube", Some(items[i].1), Some("trending_videos"))
  {
    if items == [] then []
    else
      YouTubeEntries(items[..|items| - 1])
      + [HashtagData(items[|items| - 1].0, "youtube", Some(items[|items| - 1].1), Some("trending_videos"))]
  }

  /** The YouTube entries: the ten most frequent tags, by non-increasing count (ties in
      first-occurrence order), each scored by its count. */
  function YouTubeRanking(tags: seq<string>): seq<HashtagData>
  {
    YouTubeEntries(Take(SortDesc(TagCounts(tags), CountOf), 10))
  }

  /** The counting loop of `get_youtube_hashtags`. */
  method CountVideos(descriptions: seq<Option<string>>) returns (keys: seq<string>, counts: map<string, nat>)
    ensures Tally(AllTags(descriptions), keys, counts)
  {
    keys, counts := [], map[];
    for i := 0 to |descriptions|
      invariant Tally(AllTags(descriptions[..i]), keys, counts)
    {
      assert descriptions[..i + 1][..i] == descriptions[..i];
      ghost var prev := AllTags(descriptions[..i]);
      match descriptions[i]
      case Some(d) =>
        keys, counts := CountTags(FindTags(d), keys, counts, prev);
        assert AllTags(descriptions[..i + 1]) == prev + FindTags(d);
      case None =>
        assert AllTags(descriptions[..i + 1]) == prev + [];
        assert prev + [] == prev;
    }
    assert descriptions[..|descriptions|] == descriptions;
  }

  /** `hashtag_counts.items()` read off the dictionary. */
  function DictItems(keys: seq<string>, counts: map<string, nat>): (items: seq<(string, nat)>)
    requires forall i :: 0 <= i < |keys| ==> keys[i] in counts
    ensures |items| == |keys| && forall i :: 0 <= i < |keys| ==> items[i] == (keys[i], counts[keys[i]])
  {
    seq(|keys|, i requires 0 <= i < |keys| => (keys[i], counts[keys[i]]))
  }

  /** The dictionary's items are the counted tags. */
  lemma TallyItems(tags: seq<string>, keys: seq<string>, counts: map<string, nat>)
    requires Tally(tags, keys, counts)
    ensures forall i :: 0 <= i < |keys| ==> keys[i] in counts
    ensures DictItems(keys, counts) == TagCounts(tags)
  {
    forall i | 0 <= i < |keys| ensures keys[i] in counts {
      assert keys[i] in tags;
    }
  }

  /** The ranking of `get_youtube_hashtags`: sort the counted items, keep ten, and append an
      entry for each. */
  method RankTags(keys: seq<string>, counts: map<string, nat>, ghost tags: seq<string>)
    returns (hashtags: seq<HashtagData>)
    requires Tally(tags, keys, counts)
    ensures hashtags == YouTubeRanking(tags)
  {
    TallyItems(tags, keys, counts);
    var top := Take(SortDesc(DictItems(keys, counts), CountOf), 10);
    hashtags := [];
    for i := 0 to |top|
      invariant hashtags == YouTubeEntries(top[..i])
    {
      assert top[..i + 1][..i] == top[..i];
      hashtags := hashtags + [HashtagData(top[i].0, "youtube", Some(top[i].1), Some("trending_videos"))];
    }
    assert top[..|top|] == top;
  }

  /** `get_youtube_hashtags`: count the tags of the first 20 trending videos, then rank them. */
  method YouTubeHashtags(videos: Option<seq<Option<string>>>) returns (hashtags: seq<HashtagData>)
    ensures videos.None? ==> hashtags == []
    ensures videos.Some? ==> hashtags == YouTubeRanking(AllTags(Take(videos.value, 20)))
  {
    hashtags := [];
    if videos.Some? {
      var keys, counts := CountVideos(Take(videos.value, 20));
      hashtags := RankTags(keys, counts, AllTags(Take(videos.value, 20)));
    }
  }

  /** The first component of a counted item. */
  function TagOf(item: (string, nat)): string
  {
    item.0
  }

  /** The entries are the first ten sorted items. */
  lemma YouTubeRankingItems(tags: seq<string>)
    ensures |YouTubeRanking(tags)| <= 10
    ensures |YouTubeRanking(tags)| <= |SortDesc(TagCounts(tags), CountOf)|
    ensures forall k :: 0 <= k < |YouTubeRanking(tags)| ==>
      YouTubeRanking(tags)[k].hashtag == SortDesc(TagCounts(tags), CountOf)[k].0
      && YouTubeRanking(tags)[k].Score() == SortDesc(TagCounts(tags), CountOf)[k].1
      && YouTubeRanking(tags)[k].platform == "youtube"
  {
  }

  /** The YouTube entries are at most ten tags of the descriptions, each scored by its number
      of occurrences. */
  lemma YouTubeRankingCounts(tags: seq<string>)
    ensures |YouTubeRanking(tags)| <= 10
    ensures forall k :: 0 <= k < |YouTubeRanking(tags)| ==>
      var e := YouTubeRanking(tags)[k];
      e.hashtag in tags && e.Score() == multiset(tags)[e.hashtag] && e.platform == "youtube"
  {
    var items := TagCounts(tags);
    var sorted := SortDesc(items, CountOf);
    var r := YouTubeRanking(tags);
    SortDescSorted(items, CountOf);
    YouTubeRankingItems(tags);
    forall k | 0 <= k < |r|
      ensures r[k].hashtag in tags && r[k].Score() == multiset(tags)[r[k].hashtag]
    {
      assert sorted[k] in multiset(items);
      var i :| 0 <= i < |items| && items[i] == sorted[k];
      assert Distinct(tags)[i] in tags;
    }
  }

  /** The YouTube entries have distinct tags, by non-increasing score. */
  lemma YouTubeRankingOrder(tags: seq<string>)
    ensures forall a, b :: 0 <= a < b < |YouTubeRanking(tags)| ==>
      YouTubeRanking(tags)[a].Score() >= YouTubeRanking(tags)[b].Score()
      && YouTubeRanking(tags)[a].hashtag != YouTubeRanking(tags)[b].hashtag
  {
    var items := TagCounts(tags);
    var sorted := SortDesc(items, CountOf);
    SortDescSorted(items, CountOf);
    PermutationKeepsKeysDistinct(sorted, items, TagOf);
    YouTubeRankingItems(tags);
    var r := YouTubeRanking(tags);
    forall a, b | 0 <= a < b < |r| ensures r[a].Score() >= r[b].Score() && r[a].hashtag != r[b].hashtag {
      assert CountOf(sorted[a]) >= CountOf(sorted[b]);
      assert TagOf(sorted[a]) != TagOf(sorted[b]);
    }
  }

  /** The YouTube entries are the most frequent tags: a tag left out occurs no more often than
      any tag kept. */
  lemma YouTubeRankingTop(tags: seq<string>, h: string)
    requires h in tags
    requires forall k :: 0 <= k < |YouTubeRanking(tags)| ==> YouTubeRanking(tags)[k].hashtag != h
    ensures forall k :: 0 <= k < |YouTubeRanking(tags)| ==> multiset(tags)[h] <= YouTubeRanking(tags)[k].Score()
  {
    var sorted := SortDesc(TagCounts(tags), CountOf);
    var r := YouTubeRanking(tags);
    var j := SortedPositionOf(tags, h);
    SortDescSorted(TagCounts(tags), CountOf);
    YouTubeRankingItems(tags);
    assert forall k :: 0 <= k < |r| ==> sorted[k].0 != h;
    assert j >= |r|;
    forall k | 0 <= k < |r| ensures multiset(tags)[h] <= r[k].Score() {
      assert CountOf(sorted[k]) >= CountOf(sorted[j]);
    }
  }

  /** Every tag of the descriptions has its place among the sorted items, with its count. */
  lemma SortedPositionOf(tags: seq<string>, h: string) returns (j: nat)
    requires h in tags
    ensures j < |SortDesc(TagCounts(tags), CountOf)|
    ensures SortDesc(TagCounts(tags), CountOf)[j] == (h, multiset(tags)[h])
  {
    var items := TagCounts(tags);
    var sorted := SortDesc(items, CountOf);
    SortDescSorted(items, CountOf);
    InDistinct(tags, h);
    var d :| 0 <= d < |Distinct(tags)| && Distinct(tags)[d] == h;
    assert items[d] in multiset(sorted);
    j :| 0 <= j < |sorted| && sorted[j] == items[d];
  }

  // ---------------------------------------------------------------- merging the three sources

  /** `hashtag.hashtag.lower()` of each entry. */
  function LowerKeys(xs: seq<HashtagData>): (ks: seq<string>)
    ensures |ks| == |xs| && forall i :: 0 <= i < |xs| ==> ks[i] == Lower(xs[i].hashtag)
  {
    if xs == [] then [] else LowerKeys(xs[..|xs| - 1]) + [Lower(xs[|xs| - 1].hashtag)]
  }

  /** What `unique_hashtags[key]` holds once `xs` has been read: replaced only by a strictly
      higher score, so it is the first entry of the key with the highest score. */
  function Best(xs: seq<HashtagData>, key: string): (b: Option<HashtagData>)
    ensures b.Some? <==> key in LowerKeys(xs)
    ensures b.Some? ==> Lower(b.value.hashtag) == key
  {
    if xs == [] then None
    else
      var b := Best(xs[..|xs| - 1], key);
      var x := xs[|xs| - 1];
      if Lower(x.hashtag) == key && (b.None? || x.Score() > b.value.Score()) then Some(x) else b
  }

  /** No entry of the key scores more than the one kept (a missing score counting as 0). */
  lemma {:induction false} BestIsMaximum(xs: seq<HashtagData>, key: string, i: nat)
    requires i < |xs| && Lower(xs[i].hashtag) == key
    ensures Best(xs, key).Some? && xs[i].Score() <= Best(xs, key).value.Score()
  {
    var init := xs[..|xs| - 1];
    assert LowerKeys(xs)[i] == key;
    if i < |init| {
      assert init[i] == xs[i];
      BestIsMaximum(init, key, i);
    }
  }

  /** The entry kept for a key occurs in the input, and every earlier entry of the key scores
      strictly less: of several entries with the highest score, the first one is kept. */
  lemma {:induction false} BestIsFirst(xs: seq<HashtagData>, key: string) returns (j: nat)
    requires Best(xs, key).Some?
    ensures j < |xs| && xs[j] == Best(xs, key).value
    ensures forall i :: 0 <= i < j && Lower(xs[i].hashtag) == key ==> xs[i].Score() < xs[j].Score()
  {
    var init := xs[..|xs| - 1];
    var x := xs[|xs| - 1];
    var b := Best(init, key);
    if Best(xs, key) == b {
      j := BestIsFirst(init, key);
      assert xs[j] == init[j];
      assert forall i :: 0 <= i < j ==> xs[i] == init[i];
    } else {
      j := |xs| - 1;
      forall i | 0 <= i < j && Lower(xs[i].hashtag) == key
        ensures xs[i].Score() < x.Score()
      {
        assert init[i] == xs[i];
        BestIsMaximum(init, key, i);
      }
    }
  }

  /** `unique_hashtags` after reading `seen`: its keys in insertion order, each holding the
      entry `Best` chooses. */
  ghost predicate Deduplicated(seen: seq<HashtagData>, keys: seq<string>, unique: map<string, HashtagData>)
  {
    keys == Distinct(LowerKeys(seen))
    && (forall k :: k in unique <==> k in keys)
    && (forall k :: k in unique ==> Best(seen, k) == Some(unique[k]))
  }

  /** One pass of the loop body of `get_all_trending_hashtags`: a new key is added last; an
      existing key's entry is replaced only by a strictly higher score. */
  function Admit(keys: seq<string>, unique: map<string, HashtagData>, x: HashtagData)
    : (seq<string>, map<string, HashtagData>)
  {
    var key := Lower(x.hashtag);
    if key !in unique then (keys + [key], unique[key := x])
    else if x.Score() > unique[key].Score() then (keys, unique[key := x])
    else (keys, unique)
  }

  lemma LowerKeysSnoc(seen: seq<HashtagData>, x: HashtagData)
    ensures LowerKeys(seen + [x]) == LowerKeys(seen) + [Lower(x.hashtag)]
  {
    assert (seen + [x])[..|seen|] == seen;
  }

  lemma BestSnoc(seen: seq<HashtagData>, x: HashtagData, key: string)
    ensures Best(seen + [x], key) ==
      if Lower(x.hashtag) == key && (Best(seen, key).None? || x.Score() > Best(seen, key).value.Score())
      then Some(x) else Best(seen, key)
  {
    assert (seen + [x])[..|seen|] == seen;
  }

  /** A key is in the dictionary exactly when it has been seen. */
  lemma DeduplicatedHas(seen: seq<HashtagData>, keys: seq<string>, unique: map<string, HashtagData>, key: string)
    requires Deduplicated(seen, keys, unique)
    ensures key in unique <==> key in LowerKeys(seen)
  {
    InDistinct(LowerKeys(seen), key);
  }

  /** `Admit` adds a key to the order the first time it is seen. */
  lemma AdmitKeys(seen: seq<HashtagData>, keys: seq<string>, unique: map<string, HashtagData>, x: HashtagData)
    requires Deduplicated(seen, keys, unique)
    ensures Admit(keys, unique, x).0 == Distinct(LowerKeys(seen + [x]))
  {
    DeduplicatedHas(seen, keys, unique, Lower(x.hashtag));
    LowerKeysSnoc(seen, x);
    DistinctSnoc(LowerKeys(seen), Lower(x.hashtag));
    InDistinct(LowerKeys(seen), Lower(x.hashtag));
  }

  /** `Admit` stores, for every key, the entry `Best` chooses. */
  lemma AdmitChosen(seen: seq<HashtagData>, keys: seq<string>, unique: map<string, HashtagData>, x: HashtagData,
                    k: string)
    requires Deduplicated(seen, keys, unique)
    requires k in Admit(keys, unique, x).1
    ensures Best(seen + [x], k) == Some(Admit(keys, unique, x).1[k])
  {
    BestSnoc(seen, x, k);
    if k == Lower(x.hashtag) && k !in unique {
      DeduplicatedHas(seen, keys, unique, k);
    }
  }

  /** `Admit` keeps the dictionary deduplicated. */
  lemma AdmitStep(seen: seq<HashtagData>, keys: seq<string>, unique: map<string, HashtagData>, x: HashtagData)
    requires Deduplicated(seen, keys, unique)
    ensures Deduplicated(seen + [x], Admit(keys, unique, x).0, Admit(keys, unique, x).1)
  {
    AdmitKeys(seen, keys, unique, x);
    forall k | k in Admit(keys, unique, x).1
      ensures Best(seen + [x], k) == Some(Admit(keys, unique, x).1[k])
    {
      AdmitChosen(seen, keys, unique, x, k);
    }
  }

  /** The step of the deduplicating loop over `all`. */
  lemma AdmitNext(all: seq<HashtagData>, i: nat, keys: seq<string>, unique: map<string, HashtagData>)
    requires i < |all| && Deduplicated(all[..i], keys, unique)
    ensures Deduplicated(all[..i + 1], Admit(keys, unique, all[i]).0, Admit(keys, unique, all[i]).1)
  {
    assert all[..i + 1] == all[..i] + [all[i]];
    AdmitStep(all[..i], keys, unique, all[i]);
  }

  /** The deduplicating loop of `get_all_trending_hashtags`. */
  method Deduplicate(all: seq<HashtagData>) returns (keys: seq<string>, unique: map<string, HashtagData>)
    ensures Deduplicated(all, keys, unique)
  {
    keys, unique := [], map[];
    for i := 0 to |all|
      invariant Deduplicated(all[..i], keys, unique)
    {
      AdmitNext(all, i, keys, unique);
      keys, unique := Admit(keys, unique, all[i]).0, Admit(keys, unique, all[i]).1;
      assert Deduplicated(all[..i + 1], keys, unique);
    }
    assert all[..|all|] == all;
  }

  /** `unique_hashtags.values()`: the chosen entry of each key, in first-occurrence order of the
      keys. */
  function Merged(all: seq<HashtagData>): (r: seq<HashtagData>)
    ensures |r| == |Distinct(LowerKeys(all))|
    ensures forall i :: 0 <= i < |r| ==> Some(r[i]) == Best(all, Distinct(LowerKeys(all))[i])
  {
    var keys := Distinct(LowerKeys(all));
    seq(|keys|, i requires 0 <= i < |keys| => Best(all, keys[i]).value)
  }

  /** The sort key `lambda x: x.trend_score or 0` */
  function ScoreOf(h: HashtagData): int
  {
    h.Score()
  }

  /** `get_all_trending_hashtags`, given what the three sources returned: merge by lower-cased
      hashtag, then sort by non-increasing score. */
  method GetAllTrendingHashtags(google: seq<HashtagData>, tiktok: seq<HashtagData>, youtube: seq<HashtagData>)
    returns (result: seq<HashtagData>)
    ensures result == SortDesc(Merged(google + tiktok + youtube), ScoreOf)
  {
    var all := google + tiktok + youtube;
    var keys, unique := Deduplicate(all);
    assert forall i :: 0 <= i < |keys| ==> keys[i] in unique;
    var values := seq(|keys|, i requires 0 <= i < |keys| && keys[i] in unique => unique[keys[i]]);
    assert values == Merged(all);
    result := SortDesc(values, ScoreOf);
  }

  /** The key entries are merged on. */
  function TagKey(h: HashtagData): string
  {
    Lower(h.hashtag)
  }

  lemma MergedKeys(all: seq<HashtagData>)
    ensures forall i :: 0 <= i < |Merged(all)| ==> TagKey(Merged(all)[i]) == Distinct(LowerKeys(all))[i]
  {
  }

  /** The merged list has one entry per lower-cased hashtag, ordered by non-increasing score. */
  lemma {:induction false} AllTrendingUnique(all: seq<HashtagData>)
    ensures var r := SortDesc(Merged(all), ScoreOf);
      NonIncreasing(r, ScoreOf)
      && |r| == |Distinct(LowerKeys(all))|
      && forall a, b :: 0 <= a < b < |r| ==> TagKey(r[a]) != TagKey(r[b])
  {
    var m := Merged(all);
    MergedKeys(all);
    SortDescSorted(m, ScoreOf);
    PermutationKeepsKeysDistinct(SortDesc(m, ScoreOf), m, TagKey);
  }

  /** Each entry of the merged list is the one chosen for its key. */
  lemma {:induction false} AllTrendingChosen(all: seq<HashtagData>)
    ensures var r := SortDesc(Merged(all), ScoreOf);
      forall k :: 0 <= k < |r| ==> Best(all, TagKey(r[k])) == Some(r[k])
  {
    var m := Merged(all);
    var r := SortDesc(m, ScoreOf);
    MergedKeys(all);
    SortDescSorted(m, ScoreOf);
    forall k | 0 <= k < |r|
      ensures Best(all, TagKey(r[k])) == Some(r[k])
    {
      assert r[k] in multiset(m);
      var i :| 0 <= i < |m| && m[i] == r[k];
    }
  }

  /** Every hashtag the sources found, up to case, is in the merged list. */
  lemma {:induction false} AllTrendingCovers(all: seq<HashtagData>, i: nat)
    requires i < |all|
    ensures var r := SortDesc(Merged(all), ScoreOf);
      exists k :: 0 <= k < |r| && TagKey(r[k]) == TagKey(all[i])
  {
    var m := Merged(all);
    var r := SortDesc(m, ScoreOf);
    var j := MergedCovers(all, i);
    SortDescSorted(m, ScoreOf);
    var k := PermutedPosition(r, m, j);
    assert TagKey(r[k]) == TagKey(all[i]);
  }

  /** Before sorting, every hashtag the sources found has its entry, up to case. */
  lemma MergedCovers(all: seq<HashtagData>, i: nat) returns (j: nat)
    requires i < |all|
    ensures j < |Merged(all)| && TagKey(Merged(all)[j]) == TagKey(all[i])
  {
    var keys := Distinct(LowerKeys(all));
    MergedKeys(all);
    assert LowerKeys(all)[i] == TagKey(all[i]);
    InDistinct(LowerKeys(all), TagKey(all[i]));
    j :| 0 <= j < |keys| && keys[j] == TagKey(all[i]);
  }

  // ---------------------------------------------------------------- content search

  /** `ContentData` */
  datatype ContentData = ContentData(
    platform: string,
    hashtag: string,
    title: string,
    thumbnailUrl: string,
    videoUrl: Option<string>,
    viewCount: Option<string>,
    creator: Option<string>,
    description: Option<string>,
    thumbnailBase64: Option<string>)

  const TikTokTagPrefix: string := "https://www.tiktok.com/tag/"
  const YouTubeSearchPrefix: string := "https://www.youtube.com/results?search_query="

  /** The page `search_tiktok_hashtag` opens: the tag page of the hashtag with every '#'
      removed. */
  function TikTokTagUrl(hashtag: string): (url: string)
    ensures StartsWith(url, TikTokTagPrefix)
    ensures '#' !in url[|TikTokTagPrefix|..]
    ensures |url| == |TikTokTagPrefix| + |hashtag| - CountChar(hashtag, '#')
  {
    TikTokTagPrefix + RemoveChar(hashtag, '#')
  }

  /** Writing the hashtag with or without its '#' opens the same page. */
  lemma TikTokTagUrlIgnoresHash(name: string)
    ensures TikTokTagUrl("#" + name) == TikTokTagUrl(name)
  {
    assert ("#" + name)[1..] == name;
  }

  /** A hashtag without '#' is used as it is. */
  lemma TikTokTagUrlOfPlainName(name: string)
    requires '#' !in name
    ensures TikTokTagUrl(name) == TikTokTagPrefix + name
  {
    RemoveCharAbsent(name, '#');
  }

  /** Character by character: a '#' adds nothing to the URL, any other character is appended
      as it is. */
  lemma TikTokTagUrlSnoc(name: string, c: char)
    ensures TikTokTagUrl(name + [c]) == TikTokTagUrl(name) + (if c == '#' then [] else [c])
  {
    RemoveCharAppend(name, [c], '#');
    RemoveCharSingle(c, '#');
  }

  /** The results page `search_youtube_hashtag` opens: every '#' of the hashtag is written as
      "%23". */
  function YouTubeSearchUrl(hashtag: string): (url: string)
    ensures StartsWith(url, YouTubeSearchPrefix)
    ensures '#' !in url[|YouTubeSearchPrefix|..]
    ensures |url| == |YouTubeSearchPrefix| + |hashtag| + 2 * CountChar(hashtag, '#')
  {
    YouTubeSearchPrefix + ReplaceChar(hashtag, '#', "%23")
  }

  /** The leading '#' of a hashtag becomes "%23" in the query. */
  lemma YouTubeSearchUrlOfHashtag(name: string)
    ensures YouTubeSearchUrl("#" + name) == YouTubeSearchPrefix + "%23" + ReplaceChar(name, '#', "%23")
  {
    assert ("#" + name)[1..] == name;
  }

  /** Character by character: a '#' appends "%23" to the URL, any other character itself. */
  lemma YouTubeSearchUrlSnoc(name: string, c: char)
    ensures YouTubeSearchUrl(name + [c]) == YouTubeSearchUrl(name) + (if c == '#' then "%23" else [c])
  {
    ReplaceCharAppend(name, [c], '#', "%23");
    ReplaceCharSingle(c, '#', "%23");
  }

  /** A hashtag whose name holds no further '#' is searched for verbatim after "%23". */
  lemma YouTubeSearchUrlOfPlainName(name: string)
    requires '#' !in name
    ensures YouTubeSearchUrl("#" + name) == YouTubeSearchPrefix + "%23" + name
    ensures YouTubeSearchUrl(name) == YouTubeSearchPrefix + name
  {
    YouTubeSearchUrlOfHashtag(name);
    ReplaceCharAbsent(name, '#', "%23");
  }

  /** The `video_url` stored for a YouTube result: a link that does not start with "http" is
      taken as a path on youtube.com; an absent or empty link is kept as it is. */
  function YouTubeVideoUrl(href: Option<string>): (url: Option<string>)
    ensures url.Some? <==> href.Some?
    ensures url.Some? ==> |href.value| <= |url.value| && url.value[|url.value| - |href.value|..] == href.value
    ensures url.Some? && href.value != [] ==> StartsWith(url.value, "http")
  {
    match href
    case None => None
    case Some(h) => if h != [] && !StartsWith(h, "http") then Some("https://youtube.com" + h) else href
  }

  /** Completing a link twice is the same as completing it once. */
  lemma YouTubeVideoUrlIdempotent(href: Option<string>)
    ensures YouTubeVideoUrl(YouTubeVideoUrl(href)) == YouTubeVideoUrl(href)
  {
  }

  /** `x or default` for an optional string: `default` when `x` is None or empty. */
  function OrElse(x: Option<string>, default: string): string
  {
    if x.Some? && x.value != [] then x.value else default
  }

  /** The base64 thumbnail: fetched only when there is a thumbnail URL. */
  function Thumbnail(thumbnailUrl: Option<string>, encode: string -> Option<string>): Option<string>
  {
    if thumbnailUrl.Some? && thumbnailUrl.value != [] then encode(thumbnailUrl.value) else None
  }

  /** The entry `search_tiktok_hashtag` records for one video element. */
  function TikTokContent(hashtag: string, src: Option<string>, href: Option<string>,
                         encode: string -> Option<string>): (c: ContentData)
    ensures c.platform == "tiktok" && c.hashtag == hashtag
    ensures c.title == "TikTok video with " + hashtag
    ensures c.thumbnailUrl == (if src.Some? then src.value else "")
    ensures c.videoUrl == href
    ensures c.viewCount.None? && c.creator.None? && c.description.None?
    ensures c.thumbnailBase64 == if src.Some? && src.value != [] then encode(src.value) else None
  {
    ContentData("tiktok", hashtag, "TikTok video with " + hashtag, OrElse(src, ""), href,
                None, None, None, Thumbnail(src, encode))
  }

  /** The entry `search_youtube_hashtag` records for one video element: the title attribute, or
      else the link text, or else "Untitled". */
  function YouTubeContent(hashtag: string, src: Option<string>, titleAttr: Option<string>, text: string,
                          href: Option<string>, views: Option<string>, creator: Option<string>,
                          encode: string -> Option<string>): (c: ContentData)
    ensures c.platform == "youtube" && c.hashtag == hashtag
    ensures c.title != []
    ensures titleAttr.Some? && titleAttr.value != [] ==> c.title == titleAttr.value
    ensures (titleAttr.None? || titleAttr.value == []) && text != [] ==> c.title == text
    ensures c.videoUrl == YouTubeVideoUrl(href)
    ensures c.viewCount == views && c.creator == creator && c.description.None?
    ensures c.thumbnailBase64 == if src.Some? && src.value != [] then encode(src.value) else None
  {
    ContentData("youtube", hashtag, OrElse(Some(OrElse(titleAttr, text)), "Untitled"), OrElse(src, ""),
                YouTubeVideoUrl(href), views, creator, None, Thumbnail(src, encode))
  }

  /** The image is downloaded only for a non-empty thumbnail URL: without one, the encoder is
      never consulted and no base64 thumbnail is recorded. */
  lemma TikTokThumbnailOnlyForSrc(hashtag: string, src: Option<string>, href: Option<string>,
                                  encode: string -> Option<string>, encode': string -> Option<string>)
    requires src.None? || src.value == []
    ensures TikTokContent(hashtag, src, href, encode) == TikTokContent(hashtag, src, href, encode')
    ensures TikTokContent(hashtag, src, href, encode).thumbnailBase64.None?
  {
  }

  /** The same rule for a YouTube entry. */
  lemma YouTubeThumbnailOnlyForSrc(hashtag: string, src: Option<string>, titleAttr: Option<string>,
                                   text: string, href: Option<string>, views: Option<string>,
                                   creator: Option<string>,
                                   encode: string -> Option<string>, encode': string -> Option<string>)
    requires src.None? || src.value == []
    ensures YouTubeContent(hashtag, src, titleAttr, text, href, views, creator, encode)
         == YouTubeContent(hashtag, src, titleAttr, text, href, views, creator, encode')
    ensures YouTubeContent(hashtag, src, titleAttr, text, href, views, creator, encode).thumbnailBase64.None?
  {
  }

  /** The content gathered for one hashtag: the TikTok results (when the filter is 'both' or
      'tiktok') followed by the YouTube results (when it is 'both' or 'youtube'). */
  function HashtagContent(hashtag: string, platform: string, limit: int,
                          searchTikTok: (string, int) -> seq<ContentData>,
                          searchYouTube: (string, int) -> seq<ContentData>): seq<ContentData>
  {
    (if platform in ["both", "tiktok"] then searchTikTok(hashtag, limit) else [])
    + (if platform in ["both", "youtube"] then searchYouTube(hashtag, limit) else [])
  }

  /** What each filter value searches: 'both' puts TikTok first, each single platform only
      itself, any other value nothing. */
  lemma HashtagContentByPlatform(hashtag: string, platform: string, limit: int,
                                 searchTikTok: (string, int) -> seq<ContentData>,
                                 searchYouTube: (string, int) -> seq<ContentData>)
    ensures var c := HashtagContent(hashtag, platform, limit, searchTikTok, searchYouTube);
      var t := searchTikTok(hashtag, limit);
      var y := searchYouTube(hashtag, limit);
      && (platform == "both" ==> c == t + y && c[..|t|] == t)
      && (platform == "tiktok" ==> c == t)
      && (platform == "youtube" ==> c == y)
      && (platform !in ["both", "tiktok", "youtube"] ==> c == [])
  {
    assert platform == "tiktok" ==> platform !in ["both", "youtube"];
    assert platform == "youtube" ==> platform !in ["both", "tiktok"];
    if platform == "both" {
      var t := searchTikTok(hashtag, limit);
      assert (t + searchYouTube(hashtag, limit))[..|t|] == t;
    }
  }

  /** The dict of `analyze_hashtag_content` after `seen`: its keys in insertion order, each
      holding that hashtag's content. */
  ghost predicate Analyzed(seen: seq<string>, keys: seq<string>, results: map<string, seq<ContentData>>,
                           platform: string, limit: int,
                           searchTikTok: (string, int) -> seq<ContentData>,
                           searchYouTube: (string, int) -> seq<ContentData>)
  {
    keys == Distinct(seen)
    && (forall h :: h in results <==> h in seen)
    && (forall h :: h in results ==> results[h] == HashtagContent(h, platform, limit, searchTikTok, searchYouTube))
  }

  /** Assigning one more hashtag places it last the first time only. */
  lemma AnalyzedStep(seen: seq<string>, keys: seq<string>, results: map<string, seq<ContentData>>,
                     platform: string, limit: int,
                     searchTikTok: (string, int) -> seq<ContentData>,
                     searchYouTube: (string, int) -> seq<ContentData>, h: string)
    requires Analyzed(seen, keys, results, platform, limit, searchTikTok, searchYouTube)
    ensures Analyzed(seen + [h], if h in results then keys else keys + [h],
                     results[h := HashtagContent(h, platform, limit, searchTikTok, searchYouTube)],
                     platform, limit, searchTikTok, searchYouTube)
  {
    DistinctSnoc(seen, h);
    InDistinct(seen, h);
    assert (seen + [h])[..|seen|] == seen;
    forall x
      ensures x in seen + [h] <==> x in seen || x == h
    {
    }
  }

  /** The step of the loop over `hashtags`: `keys'` and `results'` are the dict after
      assigning `hashtags[i]`. */
  lemma AnalyzedNext(hashtags: seq<string>, i: nat, keys: seq<string>, results: map<string, seq<ContentData>>,
                     keys': seq<string>, results': map<string, seq<ContentData>>,
                     platform: string, limit: int,
                     searchTikTok: (string, int) -> seq<ContentData>,
                     searchYouTube: (string, int) -> seq<ContentData>)
    requires i < |hashtags| && Analyzed(hashtags[..i], keys, results, platform, limit, searchTikTok, searchYouTube)
    requires keys' == if hashtags[i] in results then keys else keys + [hashtags[i]]
    requires results' == results[hashtags[i] := HashtagContent(hashtags[i], platform, limit, searchTikTok, searchYouTube)]
    ensures Analyzed(hashtags[..i + 1], keys', results', platform, limit, searchTikTok, searchYouTube)
  {
    assert hashtags[..i + 1] == hashtags[..i] + [hashtags[i]];
    AnalyzedStep(hashtags[..i], keys, results, platform, limit, searchTikTok, searchYouTube, hashtags[i]);
  }

  /** The dict once every hashtag is assigned. */
  lemma AnalyzedKeys(seen: seq<string>, keys: seq<string>, results: map<string, seq<ContentData>>,
                     platform: string, limit: int,
                     searchTikTok: (string, int) -> seq<ContentData>,
                     searchYouTube: (string, int) -> seq<ContentData>)
    requires Analyzed(seen, keys, results, platform, limit, searchTikTok, searchYouTube)
    ensures results.Keys == set h | h in seen
  {
  }

  /** The body of the loop of `analyze_hashtag_content` for one hashtag: start from an empty
      list and extend it with the results of each platform the filter selects. */
  method CollectContent(hashtag: string, platform: string, limit: int,
                        searchTikTok: (string, int) -> seq<ContentData>,
                        searchYouTube: (string, int) -> seq<ContentData>)
    returns (content: seq<ContentData>)
    ensures content == HashtagContent(hashtag, platform, limit, searchTikTok, searchYouTube)
  {
    content := [];
    if platform in ["both", "tiktok"] {
      content := content + searchTikTok(hashtag, limit);
    }
    if platform in ["both", "youtube"] {
      content := content + searchYouTube(hashtag, limit);
    }
  }

  /** `analyze_hashtag_content`: one key per input hashtag, holding its content. `keys` is the
      returned dict's key order: a hashtag is placed when first assigned, and assigning it again
      keeps its place. */
  method AnalyzeHashtagContent(hashtags: seq<string>,
                               searchTikTok: (string, int) -> seq<ContentData>,
                               searchYouTube: (string, int) -> seq<ContentData>,
                               platform: string := "both", limit: int := 5)
    returns (keys: seq<string>, results: map<string, seq<ContentData>>)
    ensures keys == Distinct(hashtags)
    ensures results.Keys == set h | h in hashtags
    ensures forall h :: h in results ==>
      results[h] == HashtagContent(h, platform, limit, searchTikTok, searchYouTube)
  {
    keys, results := [], map[];
    for i := 0 to |hashtags|
      invariant Analyzed(hashtags[..i], keys, results, platform, limit, searchTikTok, searchYouTube)
    {
      var hashtag := hashtags[i];
      var content := CollectContent(hashtag, platform, limit, searchTikTok, searchYouTube);
      ghost var keys0, results0 := keys, results;
      keys := if hashtag in results then keys else keys + [hashtag];
      results := results[hashtag := content];
      AnalyzedNext(hashtags, i, keys0, results0, keys, results, platform, limit, searchTikTok, searchYouTube);
      assert Analyzed(hashtags[..i + 1], keys, results, platform, limit, searchTikTok, searchYouTube);
    }
    assert hashtags[..|hashtags|] == hashtags;
    AnalyzedKeys(hashtags, keys, results, platform, limit, searchTikTok, searchYouTube);
  }

}
