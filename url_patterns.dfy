/** The start-anchored URL regular expressions shared by the platform detectors of
    manager/tools/summ_down.py and manager/tools/combine.py, written as predicates.

    Every pattern has the shape `https?://` HEAD CLASS+ for a finite set of literal heads, except
    the TikTok video pattern, whose head is followed by a user name, `/video/` and digits. Since
    `re.match` anchors only at the start, a pattern holds as soon as the head is followed by one
    character of the class (the TikTok video pattern: by the user name, `/video/` and one digit). */
module UrlPatterns {
  import opened Base
  import opened Text

  /** The three answers of a platform detector. */
  datatype Platform = TikTok | YouTube | Unknown {
    /** The string the source returns. */
    function Label(): string
    {
      match this
      case TikTok => "tiktok"
      case YouTube => "youtube"
      case Unknown => "unknown"
    }
  }

  /** `https?://`: what follows the scheme, when the URL starts with one. */
  function AfterScheme(s: string): (r: Option<string>)
    ensures r.Some? ==> |r.value| < |s| && r.value == s[|s| - |r.value|..]
  {
    if StartsWith(s, "https://") then Some(s[8..])
    else if StartsWith(s, "http://") then Some(s[7..])
    else None
  }

  /** `lit` is a prefix of `s` and is followed by at least one character of `cls`. */
  predicate LitThenRun(s: string, lit: string, cls: char -> bool)
  {
    StartsWith(s, lit) && |s| > |lit| && cls(s[|lit|])
  }

  /** Some head of `heads` is followed by at least one character of `cls`. */
  predicate AnyLitThenRun(s: string, heads: seq<string>, cls: char -> bool)
  {
    |heads| > 0 && (LitThenRun(s, heads[0], cls) || AnyLitThenRun(s, heads[1..], cls))
  }

  /** `[\w.-]+/video/\d+` at the start of `r`. */
  predicate UserThenVideo(r: string)
  {
    var k := RunLength(r, IsWordDotDash);
    k >= 1 && LitThenRun(r[k..], "/video/", IsDigit)
  }

  /** Some head of `heads` is followed by `[\w.-]+/video/\d+`. */
  predicate AnyVideoPath(s: string, heads: seq<string>)
  {
    |heads| > 0 && ((StartsWith(s, heads[0]) && UserThenVideo(s[|heads[0]|..])) || AnyVideoPath(s, heads[1..]))
  }

  // The heads that follow `https?://`, one per expansion of an optional group.
  const TikTokVideoHeads: seq<string> := ["tiktok.com/@", "www.tiktok.com/@"]
  const TikTokShortLinkHeads: seq<string> := ["vm.tiktok.com/", "vt.tiktok.com/"]
  const TikTokTHeads: seq<string> := ["tiktok.com/t/", "www.tiktok.com/t/"]
  const YouTubeShortsHeads: seq<string> := ["youtube.com/shorts/", "www.youtube.com/shorts/"]
  const YoutuBeHeads: seq<string> := ["youtu.be/"]
  const YouTubeWatchHeads: seq<string> := ["youtube.com/watch?v=", "www.youtube.com/watch?v="]
  const MobileWatchHeads: seq<string> := ["youtube.com/watch?v=", "m.youtube.com/watch?v="]

  /** The rest of a URL after its scheme matches one of the three TikTok patterns. */
  predicate TikTokRest(r: string)
  {
    AnyVideoPath(r, TikTokVideoHeads)
    || AnyLitThenRun(r, TikTokShortLinkHeads, IsWordDotDash)
    || AnyLitThenRun(r, TikTokTHeads, IsWordDotDash)
  }

  /** The rest of a URL after its scheme matches one of the three YouTube patterns they share. */
  predicate YouTubeRest(r: string)
  {
    AnyLitThenRun(r, YouTubeShortsHeads, IsIdChar)
    || AnyLitThenRun(r, YoutuBeHeads, IsIdChar)
    || AnyLitThenRun(r, YouTubeWatchHeads, IsIdChar)
  }

  /** `any(re.match(p, url) for p in tiktok_patterns)` */
  predicate IsTikTokUrl(s: string)
  {
    AfterScheme(s).Some? && TikTokRest(AfterScheme(s).value)
  }

  /** `any(re.match(p, url) for p in youtube_patterns)` for the three shared YouTube patterns. */
  predicate IsYouTubeUrl(s: string)
  {
    AfterScheme(s).Some? && YouTubeRest(AfterScheme(s).value)
  }

  /** `re.match(r'https?://(?:m\.)?youtube\.com/watch\?v=[\w-]+', url)` */
  predicate IsMobileWatchUrl(s: string)
  {
    AfterScheme(s).Some? && AnyLitThenRun(AfterScheme(s).value, MobileWatchHeads, IsIdChar)
  }

  // ---------------------------------------------------------------- anchored at the start only

  lemma AfterSchemeExtend(s: string, t: string)
    requires AfterScheme(s).Some?
    ensures AfterScheme(s + t) == Some(AfterScheme(s).value + t)
  {
    if StartsWith(s, "https://") {
      StartsWithExtend(s, "https://", t);
      assert (s + t)[8..] == s[8..] + t;
    } else {
      StartsWithExtend(s, "http://", t);
      assert s[4] == ':' by { assert s[..7][4] == ':'; }
      assert !StartsWith(s + t, "https://") by {
        if |s + t| >= 8 {
          assert (s + t)[..8][4] == ':';
        }
      }
      assert (s + t)[7..] == s[7..] + t;
    }
  }

  lemma LitThenRunExtend(s: string, lit: string, cls: char -> bool, t: string)
    requires LitThenRun(s, lit, cls)
    ensures LitThenRun(s + t, lit, cls)
  {
    StartsWithExtend(s, lit, t);
    assert (s + t)[|lit|] == s[|lit|];
  }

  lemma {:induction false} AnyLitThenRunExtend(s: string, heads: seq<string>, cls: char -> bool, t: string)
    requires AnyLitThenRun(s, heads, cls)
    ensures AnyLitThenRun(s + t, heads, cls)
    decreases |heads|
  {
    if LitThenRun(s, heads[0], cls) {
      LitThenRunExtend(s, heads[0], cls, t);
    } else {
      AnyLitThenRunExtend(s, heads[1..], cls, t);
    }
  }

  lemma UserThenVideoExtend(r: string, t: string)
    requires UserThenVideo(r)
    ensures UserThenVideo(r + t)
  {
    var k := RunLength(r, IsWordDotDash);
    assert r[k] == '/';
    RunLengthAppend(r, t, IsWordDotDash);
    assert (r + t)[k..] == r[k..] + t;
    LitThenRunExtend(r[k..], "/video/", IsDigit, t);
  }

  lemma {:induction false} AnyVideoPathExtend(s: string, heads: seq<string>, t: string)
    requires AnyVideoPath(s, heads)
    ensures AnyVideoPath(s + t, heads)
    decreases |heads|
  {
    if StartsWith(s, heads[0]) && UserThenVideo(s[|heads[0]|..]) {
      StartsWithExtend(s, heads[0], t);
      assert (s + t)[|heads[0]|..] == s[|heads[0]|..] + t;
      UserThenVideoExtend(s[|heads[0]|..], t);
    } else {
      AnyVideoPathExtend(s, heads[1..], t);
    }
  }

  /** Trailing text after a TikTok URL keeps it a TikTok URL. */
  lemma TikTokUrlExtend(s: string, t: string)
    requires IsTikTokUrl(s)
    ensures IsTikTokUrl(s + t)
  {
    var r := AfterScheme(s).value;
    AfterSchemeExtend(s, t);
    if AnyVideoPath(r, TikTokVideoHeads) {
      AnyVideoPathExtend(r, TikTokVideoHeads, t);
    } else if AnyLitThenRun(r, TikTokShortLinkHeads, IsWordDotDash) {
      AnyLitThenRunExtend(r, TikTokShortLinkHeads, IsWordDotDash, t);
    } else {
      AnyLitThenRunExtend(r, TikTokTHeads, IsWordDotDash, t);
    }
  }

  /** Trailing text after a YouTube URL keeps it a YouTube URL. */
  lemma YouTubeUrlExtend(s: string, t: string)
    requires IsYouTubeUrl(s)
    ensures IsYouTubeUrl(s + t)
  {
    var r := AfterScheme(s).value;
    AfterSchemeExtend(s, t);
    if AnyLitThenRun(r, YouTubeShortsHeads, IsIdChar) {
      AnyLitThenRunExtend(r, YouTubeShortsHeads, IsIdChar, t);
    } else if AnyLitThenRun(r, YoutuBeHeads, IsIdChar) {
      AnyLitThenRunExtend(r, YoutuBeHeads, IsIdChar, t);
    } else {
      AnyLitThenRunExtend(r, YouTubeWatchHeads, IsIdChar, t);
    }
  }

  lemma MobileWatchUrlExtend(s: string, t: string)
    requires IsMobileWatchUrl(s)
    ensures IsMobileWatchUrl(s + t)
  {
    AfterSchemeExtend(s, t);
    AnyLitThenRunExtend(AfterScheme(s).value, MobileWatchHeads, IsIdChar, t);
  }

  // ---------------------------------------------------------------- the two families never overlap

  /** The head through which `AnyLitThenRun` holds. */
  lemma {:induction false} LitHead(r: string, heads: seq<string>, cls: char -> bool) returns (k: nat)
    requires AnyLitThenRun(r, heads, cls)
    ensures k < |heads| && StartsWith(r, heads[k]) && |r| > |heads[k]|
    decreases |heads|
  {
    if LitThenRun(r, heads[0], cls) {
      k := 0;
    } else {
      k := LitHead(r, heads[1..], cls);
      k := k + 1;
    }
  }

  /** The head through which `AnyVideoPath` holds. */
  lemma {:induction false} VideoHead(r: string, heads: seq<string>) returns (k: nat)
    requires AnyVideoPath(r, heads)
    ensures k < |heads| && StartsWith(r, heads[k]) && |r| > |heads[k]|
    decreases |heads|
  {
    if StartsWith(r, heads[0]) && UserThenVideo(r[|heads[0]|..]) {
      k := 0;
    } else {
      k := VideoHead(r, heads[1..]);
      k := k + 1;
    }
  }

  /** A string with prefix `h` agrees with `h` on its first five characters. */
  lemma FirstFive(r: string, h: string)
    requires StartsWith(r, h) && |h| >= 5
    ensures r[0] == h[0] && r[..4] == h[..4] && r[4] == h[4]
  {
    assert r[..|h|] == h;
    assert r[..4] == r[..|h|][..4];
  }

  /** What every TikTok head starts with: `t`, `v`, or `www.` then `t`. */
  lemma TikTokRestInitial(r: string)
    requires TikTokRest(r)
    ensures |r| > 5 && (r[0] == 't' || r[0] == 'v' || (r[..4] == "www." && r[4] == 't'))
  {
    var h: string;
    if AnyVideoPath(r, TikTokVideoHeads) {
      var k := VideoHead(r, TikTokVideoHeads);
      h := TikTokVideoHeads[k];
    } else if AnyLitThenRun(r, TikTokShortLinkHeads, IsWordDotDash) {
      var k := LitHead(r, TikTokShortLinkHeads, IsWordDotDash);
      h := TikTokShortLinkHeads[k];
    } else {
      var k := LitHead(r, TikTokTHeads, IsWordDotDash);
      h := TikTokTHeads[k];
    }
    assert h[0] == 't' || h[0] == 'v' || (h[..4] == "www." && h[4] == 't');
    FirstFive(r, h);
  }

  /** What every YouTube head starts with: `y`, or `www.` then `y`. */
  lemma YouTubeRestInitial(r: string)
    requires YouTubeRest(r)
    ensures |r| > 5 && (r[0] == 'y' || (r[..4] == "www." && r[4] == 'y'))
  {
    if AnyLitThenRun(r, YouTubeShortsHeads, IsIdChar) {
      var k := LitHead(r, YouTubeShortsHeads, IsIdChar);
      FirstFive(r, YouTubeShortsHeads[k]);
    } else if AnyLitThenRun(r, YoutuBeHeads, IsIdChar) {
      var k := LitHead(r, YoutuBeHeads, IsIdChar);
      FirstFive(r, YoutuBeHeads[k]);
    } else {
      var k := LitHead(r, YouTubeWatchHeads, IsIdChar);
      FirstFive(r, YouTubeWatchHeads[k]);
    }
  }

  /** What every mobile watch head starts with: `y` or `m`. */
  lemma MobileRestInitial(r: string)
    requires AnyLitThenRun(r, MobileWatchHeads, IsIdChar)
    ensures |r| > 5 && (r[0] == 'y' || r[0] == 'm')
  {
    var k := LitHead(r, MobileWatchHeads, IsIdChar);
    FirstFive(r, MobileWatchHeads[k]);
  }

  /** No URL matches both a TikTok and a YouTube pattern, so the order in which the source
      tries the two lists never matters. */
  lemma TikTokYouTubeDisjoint(s: string)
    ensures !(IsTikTokUrl(s) && IsYouTubeUrl(s))
  {
    if IsTikTokUrl(s) && IsYouTubeUrl(s) {
      TikTokRestInitial(AfterScheme(s).value);
      YouTubeRestInitial(AfterScheme(s).value);
    }
  }

  /** A mobile watch URL is never a TikTok URL either. */
  lemma TikTokMobileDisjoint(s: string)
    ensures !(IsTikTokUrl(s) && IsMobileWatchUrl(s))
  {
    if IsTikTokUrl(s) && IsMobileWatchUrl(s) {
      TikTokRestInitial(AfterScheme(s).value);
      MobileRestInitial(AfterScheme(s).value);
    }
  }
}
