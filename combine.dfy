/** The URL handling of `UnifiedVideoDownloader` in manager/tools/combine.py: platform
    detection, the Shorts test on yt-dlp's video info, rewriting a YouTube URL into its Shorts
    form, and the dispatching download loop.

    The downloads themselves (yt-dlp, the temporary directory, the cleanup timer) are oracles:
    `downloadTikTok(url)` and `downloadShort(url)` are the booleans `download_tiktok_video` and
    `download_youtube_short` return. */
module Combine {
  import opened Base
  import opened Text
  import opened Seqs
  import opened UrlPatterns
  import SummDown

  // ---------------------------------------------------------------- platform detection

  /** `detect_platform`: like the one in summ_down.py, with a fourth YouTube pattern that also
      accepts the mobile host `m.youtube.com`. */
  function DetectPlatform(url: string): (p: Platform)
    ensures p == TikTok <==> IsTikTokUrl(url)
    ensures p == YouTube <==> !IsTikTokUrl(url) && (IsYouTubeUrl(url) || IsMobileWatchUrl(url))
    ensures p == YouTube <==> IsYouTubeUrl(url) || IsMobileWatchUrl(url)
  {
    TikTokYouTubeDisjoint(url);
    TikTokMobileDisjoint(url);
    if IsTikTokUrl(url) then TikTok
    else if IsYouTubeUrl(url) || IsMobileWatchUrl(url) then YouTube
    else Unknown
  }

  /** The two detectors disagree exactly on mobile watch URLs that summ_down.py rejects. */
  lemma DetectorsDifferOnlyOnMobile(url: string)
    ensures DetectPlatform(url) != SummDown.DetectPlatform(url) <==>
      IsMobileWatchUrl(url) && SummDown.DetectPlatform(url) == Unknown
    ensures DetectPlatform(url) != SummDown.DetectPlatform(url) ==> DetectPlatform(url) == YouTube
  {
  }

  /** A mobile watch URL on which the two detectors disagree. */
  lemma MobileWatchExample()
    ensures DetectPlatform("https://m.youtube.com/watch?v=abc") == YouTube
    ensures SummDown.DetectPlatform("https://m.youtube.com/watch?v=abc") == Unknown
  {
    var url := "https://m.youtube.com/watch?v=abc";
    var rest := "m.youtube.com/watch?v=abc";
    assert StartsWith(url, "https://");
    assert AfterScheme(url) == Some(rest);
    assert LitThenRun(rest, MobileWatchHeads[1], IsIdChar);
    assert IsMobileWatchUrl(url);
    assert rest[0] == 'm' && rest[..4] == "m.yo";
    if IsTikTokUrl(url) {
      TikTokRestInitial(rest);
    }
    if IsYouTubeUrl(url) {
      YouTubeRestInitial(rest);
    }
  }

  /** `is_valid_tiktok_url` */
  predicate IsValidTikTokUrl(url: string)
  {
    DetectPlatform(url) == TikTok
  }

  /** `is_valid_youtube_url` */
  predicate IsValidYouTubeUrl(url: string)
  {
    DetectPlatform(url) == YouTube
  }

  /** No URL is valid for both platforms, and each validity test is its family of patterns. */
  lemma ValidUrlsExclusive(url: string)
    ensures !(IsValidTikTokUrl(url) && IsValidYouTubeUrl(url))
    ensures IsValidTikTokUrl(url) <==> IsTikTokUrl(url)
    ensures IsValidYouTubeUrl(url) <==> IsYouTubeUrl(url) || IsMobileWatchUrl(url)
  {
  }

  // ---------------------------------------------------------------- Shorts test

  /** The fields of yt-dlp's info dict that `is_video_a_short` reads, with the `get` defaults
      applied: `duration` is `None` when absent or null, the strings default to `''` and the
      dimensions to 0. */
  datatype VideoInfo = VideoInfo(duration: Option<int>, title: string, description: string,
                                 width: int, height: int)

  /** `is_video_a_short`: a short, nonzero duration; or "shorts" in the lower-cased title or
      description; or a vertical frame. */
  predicate IsVideoAShort(info: VideoInfo)
  {
    (info.duration.Some? && info.duration.value != 0 && info.duration.value <= 60)
    || Contains(Lower(info.title), "shorts")
    || Contains(Lower(info.description), "shorts")
    || info.height > info.width
  }

  /** The word "Shorts" counts in any letter case, anywhere in the title or the description. */
  lemma ShortsMarkerAnyCase(info: VideoInfo, marker: string)
    requires Lower(marker) == "shorts"
    requires Contains(info.title, marker) || Contains(info.description, marker)
    ensures IsVideoAShort(info)
  {
    if Contains(info.title, marker) {
      LowerContains(info.title, marker);
    } else {
      LowerContains(info.description, marker);
    }
  }

  /** A video that is long (or of unknown length), landscape or square, and never mentions
      shorts is not a short; a zero duration does not count as short. */
  lemma LongLandscapeIsNotShort(info: VideoInfo)
    requires info.duration.None? || info.duration.value == 0 || info.duration.value > 60
    requires !Contains(Lower(info.title), "shorts") && !Contains(Lower(info.description), "shorts")
    requires info.height <= info.width
    ensures !IsVideoAShort(info)
  {
  }

  // ---------------------------------------------------------------- Shorts URL

  /** The URL every converted video gets. */
  const ShortsPrefix: string := "https://www.youtube.com/shorts/"

  /** The alternatives of the first pattern, in the order the regex tries them. */
  const WatchOrShortLinkLits: seq<string> := ["youtube.com/watch?v=", "youtu.be/"]

  /** The second pattern. */
  const ShortsLits: seq<string> := ["youtube.com/shorts/"]

  /** The greedy `([\w-]+)` group at the start of `t`. */
  function IdRun(t: string): (id: string)
    ensures |id| <= |t| && id == t[..|id|] && AllChars(id, IsIdChar)
    ensures |id| < |t| ==> !IsIdChar(t[|id|])
  {
    t[..RunLength(t, IsIdChar)]
  }

  /** The pattern `(?:lit_0|lit_1|...)([\w-]+)` tried at position `i` of `s`: the group of the
      first alternative that matches there. */
  function IdAt(s: string, i: nat, lits: seq<string>): (r: Option<string>)
    requires i <= |s|
    ensures r.Some? ==> |r.value| >= 1 && AllChars(r.value, IsIdChar)
  {
    if lits == [] then None
    else if LitThenRun(s[i..], lits[0], IsIdChar) then Some(IdRun(s[i + |lits[0]|..]))
    else IdAt(s, i, lits[1..])
  }

  /** `re.search` from position `i`: the group at the leftmost position where the pattern
      matches. */
  function SearchId(s: string, i: nat, lits: seq<string>): (r: Option<string>)
    requires i <= |s|
    ensures r.Some? ==> |r.value| >= 1 && AllChars(r.value, IsIdChar)
    decreases |s| - i
  {
    match IdAt(s, i, lits)
    case Some(id) => Some(id)
    case None => if i == |s| then None else SearchId(s, i + 1, lits)
  }

  /** The search fails exactly when the pattern matches at no position. */
  lemma {:induction false} SearchIdNone(s: string, i: nat, lits: seq<string>)
    requires i <= |s|
    ensures SearchId(s, i, lits).None? ==> forall p :: i <= p <= |s| ==> IdAt(s, p, lits).None?
    ensures (forall p :: i <= p <= |s| ==> IdAt(s, p, lits).None?) ==> SearchId(s, i, lits).None?
    decreases |s| - i
  {
    if IdAt(s, i, lits).None? && i < |s| {
      SearchIdNone(s, i + 1, lits);
      assert (forall p :: i <= p <= |s| ==> IdAt(s, p, lits).None?)
         <==> (forall p :: i + 1 <= p <= |s| ==> IdAt(s, p, lits).None?);
    }
  }

  /** Positions where the pattern does not match are passed over. */
  lemma {:induction false} SearchIdSkips(s: string, i: nat, lits: seq<string>, p: nat)
    requires i <= p <= |s|
    requires forall q :: i <= q < p ==> IdAt(s, q, lits).None?
    ensures SearchId(s, i, lits) == SearchId(s, p, lits)
    decreases p - i
  {
    if i < p {
      SearchIdSkips(s, i + 1, lits, p);
    }
  }

  /** The leftmost matching position decides the search. */
  lemma {:induction false} SearchIdLeftmost(s: string, i: nat, lits: seq<string>, p: nat)
    requires i <= p <= |s| && IdAt(s, p, lits).Some?
    requires forall q :: i <= q < p ==> IdAt(s, q, lits).None?
    ensures SearchId(s, i, lits) == IdAt(s, p, lits)
    decreases p - i
  {
    if i < p {
      SearchIdLeftmost(s, i + 1, lits, p);
    }
  }

  /** `convert_to_shorts_url`: the Shorts URL of the video id the first pattern finds, else of
      the one the second pattern finds, else the URL unchanged. */
  function ConvertToShortsUrl(url: string): (r: string)
    ensures r == url || (exists id :: |id| >= 1 && AllChars(id, IsIdChar) && r == ShortsPrefix + id)
  {
    match VideoId(url)
    case Some(id) => ShortsUrlOf(id); ShortsPrefix + id
    case None => url
  }

  /** The Shorts URL of an id is one of the URLs a conversion can give. */
  lemma ShortsUrlOf(id: string)
    requires |id| >= 1 && AllChars(id, IsIdChar)
    ensures exists id' :: |id'| >= 1 && AllChars(id', IsIdChar) && ShortsPrefix + id == ShortsPrefix + id'
  {
  }

  /** The video id of `convert_to_shorts_url`: the first pattern's, else the second's. */
  function VideoId(url: string): (r: Option<string>)
    ensures r.Some? ==> |r.value| >= 1 && AllChars(r.value, IsIdChar)
  {
    match SearchId(url, 0, WatchOrShortLinkLits)
    case Some(id) => Some(id)
    case None => SearchId(url, 0, ShortsLits)
  }

  /** A literal does not start where one of its characters disagrees with the text. */
  lemma Mismatch(t: string, lit: string, k: nat)
    requires k < |lit| && (k >= |t| || t[k] != lit[k])
    ensures !StartsWith(t, lit)
  {
    if |lit| <= |t| {
      assert t[..|lit|][k] == t[k];
    }
  }

  /** The only `y` of the Shorts prefix is the one of `youtube`, at position 12. */
  lemma ShortsPrefixChars()
    ensures |ShortsPrefix| == 31
    ensures forall k :: 0 <= k < 31 && k != 12 ==> ShortsPrefix[k] != 'y'
    ensures ShortsPrefix[17] == 'b' && ShortsPrefix[24] == 's'
  {
  }

  /** No alternative of either pattern matches inside a Shorts URL, except the Shorts
      pattern at the `y` of `youtube`. */
  lemma NoMatchInShortsUrl(s: string, id: string, p: nat)
    requires |id| >= 1 && AllChars(id, IsIdChar) && s == ShortsPrefix + id
    requires p <= |s|
    ensures IdAt(s, p, WatchOrShortLinkLits).None?
    ensures p != 12 ==> IdAt(s, p, ShortsLits).None?
  {
    var t := s[p..];
    ShortsPrefixChars();
    var watch, short, shorts := "youtube.com/watch?v=", "youtu.be/", "youtube.com/shorts/";
    if p >= 31 {
      // inside the id: every character is a word character or `-`, never a `.`
      if p + 7 < |s| {
        assert t[7] == s[p + 7] == id[p + 7 - 31];
      }
      Mismatch(t, watch, 7);
      Mismatch(t, shorts, 7);
      if p + 5 < |s| {
        assert t[5] == s[p + 5] == id[p + 5 - 31];
      }
      Mismatch(t, short, 5);
    } else if p != 12 {
      assert t[0] == s[p] == ShortsPrefix[p];
      Mismatch(t, watch, 0);
      Mismatch(t, short, 0);
      Mismatch(t, shorts, 0);
    } else {
      assert t[5] == s[17] == ShortsPrefix[17];
      assert t[12] == s[24] == ShortsPrefix[24];
      Mismatch(t, watch, 12);
      Mismatch(t, short, 5);
    }
    assert WatchOrShortLinkLits[0] == watch && WatchOrShortLinkLits[1..][0] == short;
    assert WatchOrShortLinkLits[1..][1..] == [];
    assert IdAt(s, p, WatchOrShortLinkLits[1..]).None?;
    assert ShortsLits[1..] == [] && ShortsLits[0] == shorts;
  }

  /** The pattern whose literal is at position `p`, followed by a non-empty id, yields that id. */
  lemma IdAtLiteral(s: string, p: nat, lit: string, id: string)
    requires p + |lit| <= |s| && s[p..] == lit + id
    requires |id| >= 1 && AllChars(id, IsIdChar)
    ensures LitThenRun(s[p..], lit, IsIdChar)
    ensures IdRun(s[p + |lit|..]) == id
  {
    assert (lit + id)[..|lit|] == lit;
    assert s[p + |lit|..] == id;
    RunLengthAll(id, IsIdChar);
  }

  /** Converting a Shorts URL leaves it as it is. */
  lemma ConvertShortsUrlIsFixed(id: string)
    requires |id| >= 1 && AllChars(id, IsIdChar)
    ensures ConvertToShortsUrl(ShortsPrefix + id) == ShortsPrefix + id
  {
    ShortsUrlMissesFirstPattern(id);
    ShortsUrlMatchesSecondPattern(id);
  }

  /** The first pattern matches nowhere in a Shorts URL. */
  lemma ShortsUrlMissesFirstPattern(id: string)
    requires |id| >= 1 && AllChars(id, IsIdChar)
    ensures SearchId(ShortsPrefix + id, 0, WatchOrShortLinkLits).None?
  {
    var s := ShortsPrefix + id;
    forall p | 0 <= p <= |s| ensures IdAt(s, p, WatchOrShortLinkLits).None? {
      NoMatchInShortsUrl(s, id, p);
    }
    SearchIdNone(s, 0, WatchOrShortLinkLits);
  }

  /** The Shorts prefix is the scheme and `www.` followed by the second pattern's literal. */
  lemma ShortsPrefixSplit()
    ensures ShortsPrefix == "https://www." + ShortsLits[0]
    ensures |"https://www."| == 12
  {
  }

  /** The second pattern finds the id of a Shorts URL. */
  lemma ShortsUrlMatchesSecondPattern(id: string)
    requires |id| >= 1 && AllChars(id, IsIdChar)
    ensures SearchId(ShortsPrefix + id, 0, ShortsLits) == Some(id)
  {
    ShortsLitNotBefore12(id);
    ShortsLitAt12(id);
  }

  /** The second pattern does not match before the `y` of `youtube`. */
  lemma ShortsLitNotBefore12(id: string)
    requires |id| >= 1 && AllChars(id, IsIdChar)
    ensures 12 <= |ShortsPrefix + id|
    ensures SearchId(ShortsPrefix + id, 0, ShortsLits) == SearchId(ShortsPrefix + id, 12, ShortsLits)
  {
    forall q | 0 <= q < 12 ensures IdAt(ShortsPrefix + id, q, ShortsLits).None? {
      NoMatchInShortsUrl(ShortsPrefix + id, id, q);
    }
    SearchIdSkips(ShortsPrefix + id, 0, ShortsLits, 12);
  }

  /** The second pattern matches at the `y` of `youtube` and yields the id. */
  lemma ShortsLitAt12(id: string)
    requires |id| >= 1 && AllChars(id, IsIdChar)
    ensures 12 <= |ShortsPrefix + id| && SearchId(ShortsPrefix + id, 12, ShortsLits) == Some(id)
  {
    ShortsPrefixSplit();
    IdAfter("https://www.", ShortsLits[0], id);
    assert ShortsLits == [ShortsLits[0]];
  }

  /** A one-literal pattern at the end of `pre`, followed by a non-empty id, yields that id. */
  lemma IdAfter(pre: string, lit: string, id: string)
    requires |id| >= 1 && AllChars(id, IsIdChar)
    ensures IdAt(pre + lit + id, |pre|, [lit]) == Some(id)
  {
    var s := pre + lit + id;
    assert s[|pre|..] == lit + id;
    IdAtLiteral(s, |pre|, lit, id);
  }

  /** Converting twice is converting once. */
  lemma ConvertToShortsUrlIdempotent(url: string)
    ensures ConvertToShortsUrl(ConvertToShortsUrl(url)) == ConvertToShortsUrl(url)
  {
    var r := ConvertToShortsUrl(url);
    if r != url {
      var id :| |id| >= 1 && AllChars(id, IsIdChar) && r == ShortsPrefix + id;
      ConvertShortsUrlIsFixed(id);
    }
  }

  /** A converted URL is one that the detector accepts as YouTube. */
  lemma ConvertedUrlIsYouTube(url: string)
    requires ConvertToShortsUrl(url) != url
    ensures DetectPlatform(ConvertToShortsUrl(url)) == YouTube
  {
    var id :| |id| >= 1 && AllChars(id, IsIdChar) && ConvertToShortsUrl(url) == ShortsPrefix + id;
    ShortsUrlIsYouTube(ShortsPrefix + id, id);
  }

  /** Every Shorts URL with a non-empty id is a YouTube URL. */
  lemma ShortsUrlIsYouTube(s: string, id: string)
    requires |id| >= 1 && AllChars(id, IsIdChar) && s == ShortsPrefix + id
    ensures IsYouTubeUrl(s)
  {
    var scheme, head := "https://", YouTubeShortsHeads[1];
    ShortsPrefixHead();
    assert s == scheme + (head + id);
    AfterPrefix(scheme, head, id, s);
    assert StartsWith(s, scheme);
    assert AfterScheme(s) == Some(head + id);
    ShortsHeadRest(id);
  }

  /** The Shorts prefix is the scheme and the second Shorts head of the URL patterns. */
  lemma ShortsPrefixHead()
    ensures ShortsPrefix == "https://" + YouTubeShortsHeads[1]
  {
    var head := "www.youtube.com/shorts/";
    assert YouTubeShortsHeads[1] == head;
    assert ShortsPrefix == "https://" + head;
  }

  /** The second Shorts head followed by a non-empty id is what a YouTube pattern accepts
      after the scheme. */
  lemma ShortsHeadRest(id: string)
    requires |id| >= 1 && AllChars(id, IsIdChar)
    ensures YouTubeRest(YouTubeShortsHeads[1] + id)
  {
    var head := YouTubeShortsHeads[1];
    IdAtLiteral(head + id, 0, head, id);
    assert AnyLitThenRun(head + id, YouTubeShortsHeads[1..], IsIdChar);
  }

  /** The text after a prefix. */
  lemma AfterPrefix(host: string, lit: string, id: string, s: string)
    requires s == host + (lit + id)
    ensures s[|host|..] == lit + id
    ensures forall q :: 0 <= q < |host| ==> s[q] == host[q]
  {
  }

  /** A desktop watch URL becomes the Shorts URL of the same video id. */
  lemma WatchUrlConverted(id: string)
    requires |id| >= 1 && AllChars(id, IsIdChar)
    ensures ConvertToShortsUrl("https://www.youtube.com/watch?v=" + id) == ShortsPrefix + id
  {
    var host, watch, short := "https://www.", "youtube.com/watch?v=", "youtu.be/";
    var s := "https://www.youtube.com/watch?v=" + id;
    assert host + watch == "https://www.youtube.com/watch?v=";
    assert s == host + (watch + id);
    AfterPrefix(host, watch, id, s);
    assert WatchOrShortLinkLits[0] == watch && WatchOrShortLinkLits[1..][0] == short;
    assert WatchOrShortLinkLits[1..][1..] == [];
    forall q | 0 <= q < 12 ensures IdAt(s, q, WatchOrShortLinkLits).None? {
      assert s[q..][0] == s[q] == host[q] != 'y';
      Mismatch(s[q..], watch, 0);
      Mismatch(s[q..], short, 0);
      assert IdAt(s, q, WatchOrShortLinkLits[1..]).None?;
    }
    IdAtLiteral(s, 12, watch, id);
    assert IdAt(s, 12, WatchOrShortLinkLits) == Some(id);
    SearchIdLeftmost(s, 0, WatchOrShortLinkLits, 12);
  }

  // ---------------------------------------------------------------- downloads

  /** `download_video`: dispatch on the detected platform; an unsupported URL fails without a
      download. */
  function DownloadVideo(url: string, downloadTikTok: string -> bool, downloadShort: string -> bool)
    : (ok: bool)
    ensures ok ==> DetectPlatform(url) != Unknown
    ensures DetectPlatform(url) == TikTok ==> ok == downloadTikTok(url)
    ensures DetectPlatform(url) == YouTube ==> ok == downloadShort(url)
  {
    match DetectPlatform(url)
    case TikTok => downloadTikTok(url)
    case YouTube => downloadShort(url)
    case Unknown => false
  }

  /** The four counters `download_multiple_videos` prints. */
  datatype DownloadSummary = DownloadSummary(successful: nat, failed: nat, tiktok: nat, youtube: nat)

  /** The counters, given what each URL is and whether its download succeeded. */
  function Summarise(urls: seq<string>, platformOf: string -> Platform, ok: string -> bool)
    : DownloadSummary
  {
    DownloadSummary(
      |Keep(urls, ok)|,
      |urls| - |Keep(urls, ok)|,
      |Keep(urls, u => platformOf(u) == TikTok)|,
      |Keep(urls, u => platformOf(u) == YouTube)|)
  }

  /** The counting loop over abstract `platformOf` and `ok`. */
  method CountDownloads(urls: seq<string>, platformOf: string -> Platform, ok: string -> bool)
    returns (summary: DownloadSummary)
    ensures summary == Summarise(urls, platformOf, ok)
  {
    var successful, failed, tiktok, youtube := 0, 0, 0, 0;
    for i := 0 to |urls|
      invariant successful == |Keep(urls[..i], ok)|
      invariant failed == i - successful
      invariant tiktok == |Keep(urls[..i], u => platformOf(u) == TikTok)|
      invariant youtube == |Keep(urls[..i], u => platformOf(u) == YouTube)|
    {
      assert urls[..i + 1][..i] == urls[..i];
      var platform := platformOf(urls[i]);
      if platform == TikTok {
        tiktok := tiktok + 1;
      } else if platform == YouTube {
        youtube := youtube + 1;
      }
      if ok(urls[i]) {
        successful := successful + 1;
      } else {
        failed := failed + 1;
      }
    }
    assert urls[..|urls|] == urls;
    summary := DownloadSummary(successful, failed, tiktok, youtube);
  }

  /** `download_multiple_videos`: detect, count, download, count. */
  method DownloadMultipleVideos(urls: seq<string>, downloadTikTok: string -> bool,
                                downloadShort: string -> bool)
    returns (summary: DownloadSummary)
    ensures summary == Summarise(urls, DetectPlatform, u => DownloadVideo(u, downloadTikTok, downloadShort))
  {
    summary := CountDownloads(urls, DetectPlatform, u => DownloadVideo(u, downloadTikTok, downloadShort));
  }

  /** Every URL is either a success or a failure, and only a recognised URL can succeed. */
  lemma {:induction false} SummaryBounds(urls: seq<string>, platformOf: string -> Platform, ok: string -> bool)
    requires forall u :: ok(u) ==> platformOf(u) != Unknown
    ensures var s := Summarise(urls, platformOf, ok);
      s.successful + s.failed == |urls| && s.tiktok + s.youtube <= |urls|
      && s.successful <= s.tiktok + s.youtube
  {
    if urls != [] {
      var init := urls[..|urls| - 1];
      SummaryBounds(init, platformOf, ok);
    }
  }

  /** The bounds hold for the real detector and downloader. */
  lemma DownloadMultipleVideosBounds(urls: seq<string>, downloadTikTok: string -> bool,
                                     downloadShort: string -> bool)
    ensures var s := Summarise(urls, DetectPlatform, u => DownloadVideo(u, downloadTikTok, downloadShort));
      s.successful + s.failed == |urls| && s.tiktok + s.youtube <= |urls|
      && s.successful <= s.tiktok + s.youtube
  {
    SummaryBounds(urls, DetectPlatform, u => DownloadVideo(u, downloadTikTok, downloadShort));
  }
}
