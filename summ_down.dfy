/** The live path of manager/tools/summ_down.py: `VideoProcessor` downloads each URL, has Gemini
    analyse each downloaded file, and returns one `{url, analysis}` entry per URL.

    yt-dlp, the file system and Gemini are oracles:
    - `fetch(platform, url)` is the path `download_single_video` returns. `None` means yt-dlp
      raised or no `TikTok_*` / `YouTube_*` file was found.
    - `gemini(path)` is the service's side of one analysis (see `GeminiPolling.GeminiSession`).
    - `loads(text)` is `json.loads`, returning the value or the `JSONDecodeError` message. */
module SummDown {
  import opened Base
  import opened Text
  import opened Json
  import opened UrlPatterns
  import opened GeminiPolling
  import opened Seqs

  // ---------------------------------------------------------------- platform detection

  /** `detect_platform`: the TikTok patterns are tried first, then the YouTube patterns. The
      two families never both match, so each answer holds exactly when its family matches. */
  function DetectPlatform(url: string): (p: Platform)
    ensures p == TikTok <==> IsTikTokUrl(url)
    ensures p == YouTube <==> IsYouTubeUrl(url)
    ensures p == Unknown <==> !IsTikTokUrl(url) && !IsYouTubeUrl(url)
  {
    TikTokYouTubeDisjoint(url);
    if IsTikTokUrl(url) then TikTok
    else if IsYouTubeUrl(url) then YouTube
    else Unknown
  }

  /** `re.match` anchors only at the start: anything may follow a recognised URL. */
  lemma DetectPlatformIgnoresSuffix(url: string, tail: string)
    requires DetectPlatform(url) != Unknown
    ensures DetectPlatform(url + tail) == DetectPlatform(url)
  {
    if IsTikTokUrl(url) {
      TikTokUrlExtend(url, tail);
    } else {
      YouTubeUrlExtend(url, tail);
    }
  }

  // ---------------------------------------------------------------- download

  /** `download_single_video`: nothing is fetched for an unsupported platform. A supported one
      is fetched with that platform's options. */
  function DownloadSingleVideo(url: string, fetch: (Platform, string) -> Option<string>)
    : (path: Option<string>)
    ensures DetectPlatform(url) == Unknown ==> path == None
    ensures DetectPlatform(url) != Unknown ==> path == fetch(DetectPlatform(url), url)
  {
    var platform := DetectPlatform(url);
    if platform == Unknown then None else fetch(platform, url)
  }

  /** An unsupported URL never reaches yt-dlp: whatever the downloader would do, the answer is
      the same. */
  lemma UnsupportedNeverFetched(url: string, f: (Platform, string) -> Option<string>,
                                g: (Platform, string) -> Option<string>)
    requires !IsTikTokUrl(url) && !IsYouTubeUrl(url)
    ensures DownloadSingleVideo(url, f) == DownloadSingleVideo(url, g) == None
  {
  }

  /** `download_single_video` for a fixed downloader, as a function of the URL. */
  function Downloader(fetch: (Platform, string) -> Option<string>): string -> Option<string>
  {
    url => DownloadSingleVideo(url, fetch)
  }

  /** `if video_path:` in `process`: a returned path counts only when it is a non-empty string. */
  predicate Truthy(path: Option<string>)
  {
    path.Some? && path.value != ""
  }

  // ---------------------------------------------------------------- analysis validation

  const RequiredFields: seq<string> :=
    ["viral_ingredients", "video_hooks", "hook_pattern", "storytelling_blueprint"]

  const BlueprintFields: seq<string> :=
    ["genre", "theme", "target_emotion", "pov", "setting", "characters", "conflict",
     "escalating_stakes", "payoff"]

  /** The `for field in ...: if field not in v: raise ValueError(prefix + field)` loops. A
      `TypeError` raised by `in` on a value that is not a container ends the check too. */
  function FirstMissing(v: Json, fields: seq<string>, prefix: string): (o: Outcome)
    ensures o == Done <==> forall i :: 0 <= i < |fields| ==> PyIn(fields[i], v) == Ok(true)
    ensures v.JObj? && o.Fails? ==>
      exists i :: 0 <= i < |fields| && fields[i] !in v.fields && o.error == prefix + fields[i]
  {
    if fields == [] then Done
    else match PyIn(fields[0], v)
      case Raised(e) => Fails(e)
      case Ok(found) =>
        if !found then Fails(prefix + fields[0])
        else
          var rest := FirstMissing(v, fields[1..], prefix);
          assert forall i :: 1 <= i < |fields| ==> fields[i] == fields[1..][i - 1];
          rest
  }

  /** The two validation steps of `parse_json_response`, giving the text of the exception
      they raise. */
  function Validate(data: Json): (o: Outcome)
  {
    match FirstMissing(data, RequiredFields, "Missing required field: ")
    case Fails(e) => Fails(e)
    case Done =>
      match PySubscript(data, "storytelling_blueprint")
      case Raised(e) => Fails(e)
      case Ok(blueprint) =>
        FirstMissing(blueprint, BlueprintFields, "Missing storytelling_blueprint field: ")
  }

  /** What passing validation means: the data is a dict with the four required keys, and `in`
      finds each of the nine blueprint names in its `storytelling_blueprint`. */
  lemma ValidateMeans(data: Json)
    ensures Validate(data) == Done <==>
      data.JObj? &&
      (forall i :: 0 <= i < |RequiredFields| ==> RequiredFields[i] in data.fields) &&
      "storytelling_blueprint" in data.fields &&
      (forall i :: 0 <= i < |BlueprintFields| ==>
         PyIn(BlueprintFields[i], data.fields["storytelling_blueprint"]) == Ok(true))
  {
    var required := FirstMissing(data, RequiredFields, "Missing required field: ");
    if data.JObj? && forall i :: 0 <= i < |RequiredFields| ==> RequiredFields[i] in data.fields {
      assert forall i :: 0 <= i < |RequiredFields| ==> PyIn(RequiredFields[i], data) == Ok(true);
      assert required == Done;
    }
    if Validate(data) == Done {
      assert required == Done;
      assert PySubscript(data, "storytelling_blueprint").Ok?;
      assert forall i :: 0 <= i < |RequiredFields| ==> PyIn(RequiredFields[i], data) == Ok(true);
    }
  }

  /** The blueprint check uses `in`, so a list of the nine names passes it as well as a dict. */
  lemma ListBlueprintPasses()
    ensures Validate(JObj(map[
      "viral_ingredients" := JArr([]),
      "video_hooks" := JArr([]),
      "hook_pattern" := JStr(""),
      "storytelling_blueprint" := JArr(seq(|BlueprintFields|, i requires 0 <= i < |BlueprintFields| => JStr(BlueprintFields[i])))
    ])) == Done
  {
    var bp := JArr(seq(|BlueprintFields|, i requires 0 <= i < |BlueprintFields| => JStr(BlueprintFields[i])));
    forall i | 0 <= i < |BlueprintFields|
      ensures PyIn(BlueprintFields[i], bp) == Ok(true)
    {
      assert bp.items[i] == JStr(BlueprintFields[i]);
    }
  }

  /** The `storytelling_blueprint` of the fallback analysis: every field "unknown", the
      characters a list of one "unknown". */
  const FallbackBlueprint: map<string, Json> := map[
    "genre" := JStr("unknown"),
    "theme" := JStr("unknown"),
    "target_emotion" := JStr("unknown"),
    "pov" := JStr("unknown"),
    "setting" := JStr("unknown"),
    "characters" := JArr([JStr("unknown")]),
    "conflict" := JStr("unknown"),
    "escalating_stakes" := JStr("unknown"),
    "payoff" := JStr("unknown")
  ]

  /** The fallback blueprint has all nine fields. */
  lemma FallbackBlueprintComplete()
    ensures FirstMissing(JObj(FallbackBlueprint), BlueprintFields, "Missing storytelling_blueprint field: ") == Done
  {
    assert forall i :: 0 <= i < |BlueprintFields| ==> BlueprintFields[i] in FallbackBlueprint;
  }

  /** The dict `create_error_analysis` returns. */
  function FallbackFields(msg: string): map<string, Json>
  {
    map[
      "viral_ingredients" := JArr([JStr("analysis_failed")]),
      "video_hooks" := JArr([JStr("unable_to_analyze")]),
      "hook_pattern" := JStr("Error: " + msg),
      "storytelling_blueprint" := JObj(FallbackBlueprint)
    ]
  }

  /** The fallback dict has the four required keys, and its blueprint all nine fields. */
  lemma FallbackFieldsValid(msg: string)
    ensures Validate(JObj(FallbackFields(msg))) == Done
  {
    var m := FallbackFields(msg);
    assert forall i :: 0 <= i < |RequiredFields| ==> RequiredFields[i] in m;
    assert m["storytelling_blueprint"] == JObj(FallbackBlueprint);
    FallbackBlueprintComplete();
  }

  /** `create_error_analysis`: a fallback analysis whose hook pattern carries the message. */
  function ErrorAnalysis(msg: string): (r: Json)
    ensures Validate(r) == Done
    ensures r.JObj? && "hook_pattern" in r.fields && r.fields["hook_pattern"] == JStr("Error: " + msg)
  {
    FallbackFieldsValid(msg);
    JObj(FallbackFields(msg))
  }

  /** The placeholders of the fallback analysis: both lists hold one marker, and the blueprint
      is the fallback one. */
  lemma ErrorAnalysisPlaceholders(msg: string)
    ensures var f := ErrorAnalysis(msg).fields;
      "viral_ingredients" in f && f["viral_ingredients"] == JArr([JStr("analysis_failed")])
      && "video_hooks" in f && f["video_hooks"] == JArr([JStr("unable_to_analyze")])
      && "storytelling_blueprint" in f && f["storytelling_blueprint"] == JObj(FallbackBlueprint)
  {
  }

  /** The fallback blueprint has no key beyond the nine names; its characters are one "unknown"
      and every other field is "unknown". */
  lemma FallbackBlueprintPlaceholders()
    ensures forall k :: k in FallbackBlueprint ==> k in BlueprintFields
    ensures "characters" in FallbackBlueprint && FallbackBlueprint["characters"] == JArr([JStr("unknown")])
    ensures forall k :: k in FallbackBlueprint && k != "characters" ==> FallbackBlueprint[k] == JStr("unknown")
  {
  }

  // ---------------------------------------------------------------- response parsing

  /** The text handed to `json.loads`: the stripped response, cut down to the span from the
      first `{` to the last `}` when it opens with a ```` ```json ```` fence. When that `{` lies
      after that `}` the Python slice is empty. */
  function ExtractJsonText(response: string): (r: string)
    ensures !StartsWith(Strip(response), "```json") ==> r == Strip(response)
  {
    var t := Strip(response);
    if StartsWith(t, "```json") then
      var start := FindChar(t, '{');
      var end := RFindChar(t, '}') + 1;
      if start != -1 && end != 0 then (if start <= end then t[start..end] else "")
      else t
    else t
  }

  /** A fenced response gives exactly the object between the fence and its trailer. */
  lemma ExtractFenced(response: string, fence: string, body: string, trailer: string)
    requires Strip(response) == fence + body + trailer
    requires StartsWith(fence, "```json") && forall i :: 0 <= i < |fence| ==> fence[i] != '{'
    requires |body| >= 2 && body[0] == '{' && body[|body| - 1] == '}'
    requires forall i :: 0 <= i < |trailer| ==> trailer[i] != '}'
    ensures ExtractJsonText(response) == body
  {
    var t := Strip(response);
    StartsWithExtend(fence, "```json", body + trailer);
    assert fence + body + trailer == fence + (body + trailer);
    assert t[|fence|] == '{';
    var start := FindChar(t, '{');
    assert start == |fence|;
    var last := |fence| + |body| - 1;
    assert t[last] == '}';
    var end := RFindChar(t, '}');
    assert forall i :: last < i < |t| ==> t[i] == trailer[i - |fence| - |body|];
    assert end == last;
    assert t[start..end + 1] == body;
  }

  /** How `parse_json_response` ends: with the model's own JSON, or with the fallback analysis
      for a reason. */
  datatype Analysis = Fallback(reason: string) | Parsed(data: Json)
  {
    /** The dict that is returned. */
    function AsJson(): (r: Json)
      ensures (Parsed? ==> Validate(data) == Done) ==> Validate(r) == Done
    {
      match this
      case Fallback(reason) => ErrorAnalysis(reason)
      case Parsed(data) => data
    }
  }

  /** The decision `parse_json_response` makes. */
  function ParseOutcome(response: string, loads: string -> Result<Json>): (a: Analysis)
    ensures a.Parsed? ==> loads(ExtractJsonText(response)) == Ok(a.data) && Validate(a.data) == Done
    ensures a.Parsed? <==>
      loads(ExtractJsonText(response)).Ok? && Validate(loads(ExtractJsonText(response)).value) == Done
  {
    match loads(ExtractJsonText(response))
    case Raised(e) => Fallback("Invalid JSON response: " + e)
    case Ok(data) =>
      match Validate(data)
      case Fails(e) => Fallback("Analysis validation failed: " + e)
      case Done => Parsed(data)
  }

  /** `parse_json_response`: the parsed value when it validates, otherwise the fallback analysis
      naming what went wrong. Whatever the response, the result passes validation. */
  function ParseJsonResponse(response: string, loads: string -> Result<Json>): (r: Json)
    ensures Validate(r) == Done
    ensures loads(ExtractJsonText(response)).Ok? && Validate(loads(ExtractJsonText(response)).value) == Done
      ==> r == loads(ExtractJsonText(response)).value
  {
    ParseOutcome(response, loads).AsJson()
  }

  /** The two failure messages of `parse_json_response`. */
  lemma ParseJsonResponseFailures(response: string, loads: string -> Result<Json>)
    ensures var parsed := loads(ExtractJsonText(response));
      (parsed.Raised? ==> ParseJsonResponse(response, loads) == ErrorAnalysis("Invalid JSON response: " + parsed.error))
      && (parsed.Ok? && Validate(parsed.value).Fails? ==>
            ParseJsonResponse(response, loads)
            == ErrorAnalysis("Analysis validation failed: " + Validate(parsed.value).error))
  {
  }

  // ---------------------------------------------------------------- analysis of one video

  /** What `analyze_video` decides for one file. Any exception along the way (upload, refresh,
      generation, deletion) and a FAILED processing state give the fallback analysis. */
  function AnalysisOf(session: GeminiSession, loads: string -> Result<Json>): (a: Analysis)
    requires session.Settles()
    ensures a.Parsed? ==>
      session.upload.Ok? && Settle(session.upload.value, session.refreshes).Settled?
      && Settle(session.upload.value, session.refreshes).state != Failed
      && session.response.Ok? && session.deletion == Done
      && a == ParseOutcome(session.response.value, loads)
  {
    match session.upload
    case Raised(e) => Fallback(e)
    case Ok(state) =>
      match Settle(state, session.refreshes)
      case RefreshRaised(e) => Fallback(e)
      case Settled(s) =>
        if s == Failed then Fallback("Video processing failed")
        else match session.response
          case Raised(e) => Fallback(e)
          case Ok(text) =>
            match session.deletion
            case Fails(e) => Fallback(e)
            case Done => ParseOutcome(text, loads)
  }

  /** One entry of the returned list: `{'url': url, 'analysis': analysis.AsJson()}`. */
  datatype VideoEntry = VideoEntry(url: string, analysis: Analysis)

  /** `analyze_video`, with its poll loop. */
  method AnalyzeVideo(url: string, session: GeminiSession, loads: string -> Result<Json>)
    returns (entry: VideoEntry)
    requires session.Settles()
    ensures entry == VideoEntry(url, AnalysisOf(session, loads))
    ensures Validate(entry.analysis.AsJson()) == Done
  {
    match session.upload {
      case Raised(e) =>
        return VideoEntry(url, Fallback(e));
      case Ok(state) =>
        var wait, _ := AwaitProcessing(state, session.refreshes);
        match wait {
          case RefreshRaised(e) =>
            return VideoEntry(url, Fallback(e));
          case Settled(s) =>
            if s == Failed {
              return VideoEntry(url, Fallback("Video processing failed"));
            }
            match session.response {
              case Raised(e) =>
                return VideoEntry(url, Fallback(e));
              case Ok(text) =>
                match session.deletion {
                  case Fails(e) =>
                    return VideoEntry(url, Fallback(e));
                  case Done =>
                    var analysis := ParseOutcome(text, loads);
                    return VideoEntry(url, analysis);
                }
            }
        }
    }
  }

  // ---------------------------------------------------------------- the whole run

  /** The download gave a usable path. */
  function Found(download: string -> Option<string>): string -> bool
  {
    url => Truthy(download(url))
  }

  /** URLs whose download gave no path, in input order. */
  function FailedUrls(urls: seq<string>, download: string -> Option<string>): seq<string>
  {
    Drop(urls, Found(download))
  }

  /** `downloaded_files`: the `(url, path)` pairs of successful downloads, in input order. */
  function Downloads(urls: seq<string>, download: string -> Option<string>)
    : (pairs: seq<(string, string)>)
    ensures forall k :: 0 <= k < |pairs| ==> download(pairs[k].0) == Some(pairs[k].1) && pairs[k].1 != ""
  {
    if urls == [] then []
    else
      var last := urls[|urls| - 1];
      Downloads(urls[..|urls| - 1], download)
      + (if Truthy(download(last)) then [(last, download(last).value)] else [])
  }

  /** The fallback entries of the download phase. */
  function FailureEntries(urls: seq<string>): (entries: seq<VideoEntry>)
    ensures |entries| == |urls|
    ensures forall k :: 0 <= k < |urls| ==> entries[k] == VideoEntry(urls[k], Fallback("Download failed"))
  {
    if urls == [] then []
    else FailureEntries(urls[..|urls| - 1]) + [VideoEntry(urls[|urls| - 1], Fallback("Download failed"))]
  }

  /** Every file's service session eventually settles. */
  ghost predicate ServiceSettles(gemini: string -> GeminiSession)
  {
    forall path :: gemini(path).Settles()
  }

  /** The entries of the analysis phase. */
  function AnalysisEntries(pairs: seq<(string, string)>, gemini: string -> GeminiSession,
                           loads: string -> Result<Json>): (entries: seq<VideoEntry>)
    requires ServiceSettles(gemini)
    ensures |entries| == |pairs|
    ensures forall k :: 0 <= k < |pairs| ==>
      entries[k] == VideoEntry(pairs[k].0, AnalysisOf(gemini(pairs[k].1), loads))
  {
    if pairs == [] then []
    else
      var last := pairs[|pairs| - 1];
      AnalysisEntries(pairs[..|pairs| - 1], gemini, loads) + [VideoEntry(last.0, AnalysisOf(gemini(last.1), loads))]
  }

  /** The list `process` returns: the download failures first, then the analyses. */
  function ProcessResult(urls: seq<string>, download: string -> Option<string>,
                         gemini: string -> GeminiSession, loads: string -> Result<Json>)
    : seq<VideoEntry>
    requires ServiceSettles(gemini)
  {
    FailureEntries(FailedUrls(urls, download)) + AnalysisEntries(Downloads(urls, download), gemini, loads)
  }

  /** Phase 1 of `process`: one download per URL; `download` is `download_single_video`. */
  method DownloadPhase(urls: seq<string>, download: string -> Option<string>)
    returns (failures: seq<VideoEntry>, downloaded: seq<(string, string)>)
    ensures failures == FailureEntries(FailedUrls(urls, download))
    ensures downloaded == Downloads(urls, download)
  {
    failures, downloaded := [], [];
    for i := 0 to |urls|
      invariant failures == FailureEntries(FailedUrls(urls[..i], download))
      invariant downloaded == Downloads(urls[..i], download)
    {
      DownloadStep(urls, i, download);
      var path := download(urls[i]);
      if path.Some? && path.value != "" {
        downloaded := downloaded + [(urls[i], path.value)];
      } else {
        FailureEntriesSnoc(FailedUrls(urls[..i], download), urls[i]);
        failures := failures + [VideoEntry(urls[i], Fallback("Download failed"))];
      }
    }
    assert urls[..|urls|] == urls;
  }

  /** One more URL: a download adds its pair, a failure adds the URL to the failed ones. */
  lemma DownloadStep(urls: seq<string>, i: nat, download: string -> Option<string>)
    requires i < |urls|
    ensures Truthy(download(urls[i])) ==>
      Downloads(urls[..i + 1], download) == Downloads(urls[..i], download) + [(urls[i], download(urls[i]).value)]
      && FailedUrls(urls[..i + 1], download) == FailedUrls(urls[..i], download)
    ensures !Truthy(download(urls[i])) ==>
      Downloads(urls[..i + 1], download) == Downloads(urls[..i], download)
      && FailedUrls(urls[..i + 1], download) == FailedUrls(urls[..i], download) + [urls[i]]
  {
    assert urls[..i + 1][..i] == urls[..i];
  }

  /** One more failed URL adds its fallback entry. */
  lemma FailureEntriesSnoc(failed: seq<string>, url: string)
    ensures FailureEntries(failed + [url]) == FailureEntries(failed) + [VideoEntry(url, Fallback("Download failed"))]
  {
    assert (failed + [url])[..|failed|] == failed;
  }

  /** Phase 2 of `process`: one analysis per downloaded file, in download order. */
  method AnalysisPhase(downloaded: seq<(string, string)>, gemini: string -> GeminiSession,
                       loads: string -> Result<Json>)
    returns (analyses: seq<VideoEntry>)
    requires ServiceSettles(gemini)
    ensures analyses == AnalysisEntries(downloaded, gemini, loads)
  {
    analyses := [];
    for j := 0 to |downloaded|
      invariant analyses == AnalysisEntries(downloaded[..j], gemini, loads)
    {
      assert downloaded[..j + 1][..j] == downloaded[..j];
      var entry := AnalyzeVideo(downloaded[j].0, gemini(downloaded[j].1), loads);
      analyses := analyses + [entry];
    }
    assert downloaded[..|downloaded|] == downloaded;
  }

  /** `process`: the download failures first, then the analyses. */
  method Process(urls: seq<string>, fetch: (Platform, string) -> Option<string>,
                 gemini: string -> GeminiSession, loads: string -> Result<Json>)
    returns (videos: seq<VideoEntry>)
    requires ServiceSettles(gemini)
    ensures videos == ProcessResult(urls, Downloader(fetch), gemini, loads)
  {
    if |urls| == 0 {
      return [];
    }
    var failures, downloaded := DownloadPhase(urls, Downloader(fetch));
    var analyses := AnalysisPhase(downloaded, gemini, loads);
    videos := failures + analyses;
  }

  /** The url column of a list of entries. */
  function EntryUrls(videos: seq<VideoEntry>): (us: seq<string>)
    ensures |us| == |videos| && forall k :: 0 <= k < |videos| ==> us[k] == videos[k].url
  {
    if videos == [] then [] else EntryUrls(videos[..|videos| - 1]) + [videos[|videos| - 1].url]
  }

  /** The url column of `downloaded_files`. */
  function PairUrls(pairs: seq<(string, string)>): (us: seq<string>)
    ensures |us| == |pairs| && forall k :: 0 <= k < |pairs| ==> us[k] == pairs[k].0
  {
    if pairs == [] then [] else PairUrls(pairs[..|pairs| - 1]) + [pairs[|pairs| - 1].0]
  }

  /** `downloaded_files` holds the URLs whose download gave a path, in input order. */
  lemma {:induction false} DownloadsKeepOrder(urls: seq<string>, download: string -> Option<string>)
    ensures PairUrls(Downloads(urls, download)) == Keep(urls, Found(download))
  {
    if urls != [] {
      var init, last := urls[..|urls| - 1], urls[|urls| - 1];
      DownloadsKeepOrder(init, download);
      var pairs := Downloads(urls, download);
      if Truthy(download(last)) {
        assert pairs[..|pairs| - 1] == Downloads(init, download);
      }
    }
  }

  /** The download phase partitions the input: every URL is either a failure or a download. */
  lemma DownloadPhasePartitions(urls: seq<string>, download: string -> Option<string>)
    ensures multiset(FailedUrls(urls, download)) + multiset(PairUrls(Downloads(urls, download))) == multiset(urls)
  {
    DownloadsKeepOrder(urls, download);
    KeepDropPartition(urls, Found(download));
  }

  lemma EntryUrlsAppend(a: seq<VideoEntry>, b: seq<VideoEntry>)
    ensures EntryUrls(a + b) == EntryUrls(a) + EntryUrls(b)
  {
    assert forall k :: 0 <= k < |a| ==> (a + b)[k] == a[k];
    assert forall k :: |a| <= k < |a + b| ==> (a + b)[k] == b[k - |a|];
  }

  /** The url column of `process`'s result: the failed URLs, then the downloaded ones. */
  lemma ProcessResultUrls(urls: seq<string>, download: string -> Option<string>,
                          gemini: string -> GeminiSession, loads: string -> Result<Json>)
    requires ServiceSettles(gemini)
    ensures EntryUrls(ProcessResult(urls, download, gemini, loads))
      == FailedUrls(urls, download) + PairUrls(Downloads(urls, download))
  {
    var failures := FailureEntries(FailedUrls(urls, download));
    var analyses := AnalysisEntries(Downloads(urls, download), gemini, loads);
    EntryUrlsAppend(failures, analyses);
    assert EntryUrls(failures) == FailedUrls(urls, download);
    assert EntryUrls(analyses) == PairUrls(Downloads(urls, download));
  }

  /** `process` returns one entry per input URL, every URL exactly as often as it was given, and
      every entry's analysis passes validation. */
  lemma ProcessOneEntryPerUrl(urls: seq<string>, download: string -> Option<string>,
                              gemini: string -> GeminiSession, loads: string -> Result<Json>)
    requires ServiceSettles(gemini)
    ensures |ProcessResult(urls, download, gemini, loads)| == |urls|
    ensures multiset(EntryUrls(ProcessResult(urls, download, gemini, loads))) == multiset(urls)
    ensures forall k :: 0 <= k < |ProcessResult(urls, download, gemini, loads)| ==>
      Validate(ProcessResult(urls, download, gemini, loads)[k].analysis.AsJson()) == Done
  {
    ProcessResultUrls(urls, download, gemini, loads);
    DownloadPhasePartitions(urls, download);
    var us := EntryUrls(ProcessResult(urls, download, gemini, loads));
    assert |multiset(us)| == |us|;
    assert |multiset(urls)| == |urls|;
    forall k | 0 <= k < |ProcessResult(urls, download, gemini, loads)|
      ensures Validate(ProcessResult(urls, download, gemini, loads)[k].analysis.AsJson()) == Done
    {
      var e := ProcessResult(urls, download, gemini, loads)[k];
      assert e.analysis.Parsed? ==> Validate(e.analysis.data) == Done;
    }
  }

  /** The download failures come first, in input order, then the downloaded URLs in input
      order. */
  lemma ProcessKeepsInputOrder(urls: seq<string>, download: string -> Option<string>,
                               gemini: string -> GeminiSession, loads: string -> Result<Json>)
    requires ServiceSettles(gemini)
    ensures var result := ProcessResult(urls, download, gemini, loads);
      var failed := FailedUrls(urls, download);
      EntryUrls(result) == failed + Keep(urls, Found(download))
      && forall k :: 0 <= k < |failed| ==> result[k].analysis == Fallback("Download failed")
  {
    ProcessResultUrls(urls, download, gemini, loads);
    DownloadsKeepOrder(urls, download);
  }

  // ---------------------------------------------------------------- the tally

  /** `str(analysis.get('hook_pattern', ''))`; `render` is `str` on a value that is not a
      string. */
  function HookText(analysis: Json, render: Json -> string): string
    requires analysis.JObj?
  {
    match Get(analysis.fields, "hook_pattern", JStr(""))
    case JStr(s) => s
    case other => render(other)
  }

  /** Every returned analysis is a dict: it passed validation. */
  lemma AnalysisIsDict(a: Analysis)
    requires a.Parsed? ==> Validate(a.data) == Done
    ensures a.AsJson().JObj?
  {
    ValidateMeans(a.AsJson());
  }

  /** The tally's test: an entry counts as failed when its hook pattern mentions `Error`. */
  predicate CountedFailed(entry: VideoEntry, render: Json -> string)
    requires entry.analysis.AsJson().JObj?
  {
    Contains(HookText(entry.analysis.AsJson(), render), "Error")
  }

  /** Every entry of the list is a dict entry. */
  predicate AllDicts(videos: seq<VideoEntry>)
  {
    forall k :: 0 <= k < |videos| ==> videos[k].analysis.AsJson().JObj?
  }

  /** The `successful` count at the end of `process`. */
  function CountSuccessful(videos: seq<VideoEntry>, render: Json -> string): (n: nat)
    requires AllDicts(videos)
    ensures n <= |videos|
  {
    if videos == [] then 0
    else CountSuccessful(videos[..|videos| - 1], render)
         + (if CountedFailed(videos[|videos| - 1], render) then 0 else 1)
  }

  /** Every fallback analysis counts as failed. */
  lemma FallbackCountedFailed(url: string, reason: string, render: Json -> string)
    ensures Fallback(reason).AsJson().JObj?
    ensures CountedFailed(VideoEntry(url, Fallback(reason)), render)
  {
    assert ("Error: " + reason)[..5] == "Error";
  }

  /** An analysis counts as successful only when every step succeeded and the model's own
      JSON validated; the counted dict is then exactly that JSON. */
  lemma SuccessMeansRealAnalysis(url: string, session: GeminiSession,
                                 loads: string -> Result<Json>, render: Json -> string)
    requires session.Settles()
    requires AnalysisOf(session, loads).AsJson().JObj?
    requires !CountedFailed(VideoEntry(url, AnalysisOf(session, loads)), render)
    ensures session.upload.Ok?
    ensures Settle(session.upload.value, session.refreshes).Settled?
    ensures Settle(session.upload.value, session.refreshes).state != Failed
    ensures session.response.Ok? && session.deletion == Done
    ensures var parsed := loads(ExtractJsonText(session.response.value));
      parsed.Ok? && Validate(parsed.value) == Done && AnalysisOf(session, loads).AsJson() == parsed.value
  {
    var a := AnalysisOf(session, loads);
    if a.Fallback? {
      FallbackCountedFailed(url, a.reason, render);
      assert false;
    }
  }

  lemma {:induction false} CountSuccessfulAppend(a: seq<VideoEntry>, b: seq<VideoEntry>, render: Json -> string)
    requires AllDicts(a) && AllDicts(b)
    ensures AllDicts(a + b)
    ensures CountSuccessful(a + b, render) == CountSuccessful(a, render) + CountSuccessful(b, render)
    decreases |b|
  {
    if b != [] {
      assert (a + b)[..|a + b| - 1] == a + b[..|b| - 1];
      CountSuccessfulAppend(a, b[..|b| - 1], render);
    } else {
      assert a + b == a;
    }
  }

  lemma {:induction false} FailureEntriesCountNothing(urls: seq<string>, render: Json -> string)
    ensures AllDicts(FailureEntries(urls))
    ensures CountSuccessful(FailureEntries(urls), render) == 0
  {
    var entries := FailureEntries(urls);
    forall k | 0 <= k < |entries| ensures entries[k].analysis.AsJson().JObj? {
      FallbackCountedFailed(urls[k], "Download failed", render);
    }
    if urls != [] {
      assert entries[..|entries| - 1] == FailureEntries(urls[..|urls| - 1]);
      FailureEntriesCountNothing(urls[..|urls| - 1], render);
      FallbackCountedFailed(urls[|urls| - 1], "Download failed", render);
    }
  }

  /** The final tally never counts more successes than there were downloads. */
  lemma SuccessesAtMostDownloads(urls: seq<string>, download: string -> Option<string>,
                                 gemini: string -> GeminiSession, loads: string -> Result<Json>,
                                 render: Json -> string)
    requires ServiceSettles(gemini)
    ensures AllDicts(ProcessResult(urls, download, gemini, loads))
    ensures CountSuccessful(ProcessResult(urls, download, gemini, loads), render) <= |Downloads(urls, download)|
  {
    var failures := FailureEntries(FailedUrls(urls, download));
    var analyses := AnalysisEntries(Downloads(urls, download), gemini, loads);
    forall k | 0 <= k < |analyses| ensures analyses[k].analysis.AsJson().JObj? {
      AnalysisIsDict(analyses[k].analysis);
    }
    FailureEntriesCountNothing(FailedUrls(urls, download), render);
    CountSuccessfulAppend(failures, analyses, render);
  }

  // ---------------------------------------------------------------- processing time

  /** Two-digit zero padding, `f"{n:02d}"`. */
  function Pad2(n: nat): (s: string)
    ensures |s| >= 2 && AllChars(s, IsDigit) && DigitsToNat(s) == n
    ensures n < 100 ==> |s| == 2
    ensures n >= 10 ==> s == NatToString(n)
  {
    NatToStringRoundTrip(n);
    if n < 10 then
      var s := ['0'] + NatToString(n);
      assert s[..|s| - 1] == ['0'] && ['0'][..0] == [];
      s
    else
      assert n < 100 ==> |NatToString(n / 10)| == 1;
      NatToString(n)
  }

  /** The number of seconds an `H:M:S` reading stands for. */
  function ClockValue(h: nat, m: nat, s: nat): nat
  {
    h * 3600 + m * 60 + s
  }

  /** The clock fields of a number of seconds. */
  function ClockFields(seconds: nat): (f: (nat, nat, nat))
    ensures ClockValue(f.0, f.1, f.2) == seconds
    ensures f.1 < 60 && f.2 < 60
  {
    var h := seconds / 3600;
    var rest := seconds % 3600;
    var m := rest / 60;
    var s := rest % 60;
    (h, m, s)
  }

  /** `format_processing_time` on a whole number of seconds: `HH:MM:SS`, hours unbounded. */
  function FormatProcessingTime(seconds: nat): string
  {
    var f := ClockFields(seconds);
    Pad2(f.0) + ":" + (Pad2(f.1) + ":" + Pad2(f.2))
  }

  /** The text before and after the first colon. */
  function SplitColon(s: string): Option<(string, string)>
  {
    var i := FindChar(s, ':');
    if i < 0 then None else Some((s[..i], s[i + 1..]))
  }

  /** Reading an `H:M:S` string back. */
  function ParseClock(s: string): Option<nat>
  {
    match SplitColon(s)
    case None => None
    case Some((h, rest)) =>
      match SplitColon(rest)
      case None => None
      case Some((m, sec)) =>
        if AllChars(h, IsDigit) && AllChars(m, IsDigit) && AllChars(sec, IsDigit)
        then Some(ClockValue(DigitsToNat(h), DigitsToNat(m), DigitsToNat(sec)))
        else None
  }

  /** A colon after a run of digits is the first colon. */
  lemma SplitAfterDigits(a: string, b: string)
    requires AllChars(a, IsDigit)
    ensures SplitColon(a + ":" + b) == Some((a, b))
  {
    var s := a + ":" + b;
    assert s[|a|] == ':';
    assert forall k :: 0 <= k < |a| ==> s[k] == a[k];
    assert FindChar(s, ':') == |a|;
    assert s[..|a|] == a && s[|a| + 1..] == b;
  }

  /** Three digit runs joined by colons read back as their clock value. */
  lemma ParseClockFields(a: string, b: string, c: string)
    requires AllChars(a, IsDigit) && AllChars(b, IsDigit) && AllChars(c, IsDigit)
    ensures ParseClock(a + ":" + (b + ":" + c)) == Some(ClockValue(DigitsToNat(a), DigitsToNat(b), DigitsToNat(c)))
  {
    SplitAfterDigits(a, b + ":" + c);
    SplitAfterDigits(b, c);
  }

  /** The formatted time reads back as the number of seconds it was made from. */
  lemma FormatProcessingTimeRoundTrip(seconds: nat)
    ensures ParseClock(FormatProcessingTime(seconds)) == Some(seconds)
  {
    var f := ClockFields(seconds);
    ParseClockFields(Pad2(f.0), Pad2(f.1), Pad2(f.2));
  }

  /** The minutes and seconds fields are two digits each. */
  lemma FormatProcessingTimeShape(seconds: nat)
    ensures var s := FormatProcessingTime(seconds);
      |s| >= 8 && s[|s| - 3] == ':' && s[|s| - 6] == ':'
  {
    var f := ClockFields(seconds);
    assert |Pad2(f.1)| == 2 && |Pad2(f.2)| == 2;
  }
}
