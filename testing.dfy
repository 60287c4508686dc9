/** The in-memory summariser of manager/tools/testing.py (`summ_down`): for each URL, download
    the video into memory, upload it to Gemini, wait for processing, ask for a plain-text summary,
    and record one `{url, file, summary}` entry; then count how many entries failed.

    The services are oracles. `extract` is yt-dlp's `extract_info`; `fetch` answers a direct
    video URL with its chunks or raises; `gemini` answers each page URL with one file's session
    on the service (see `GeminiPolling`). The source never gives up on a file that stays in
    PROCESSING; a session whose trace runs out in that state means the source would still be
    waiting. */
module Testing {
  import opened Base
  import opened Text
  import opened Seqs
  import opened UrlPatterns
  import opened GeminiPolling

  // ---------------------------------------------------------------- platform

  /** The nested `detect_platform`: a substring search for each pattern, TikTok first. */
  function DetectPlatform(url: string): Platform
  {
    if Contains(url, "tiktok.com") || Contains(url, "vm.tiktok.com") || Contains(url, "vt.tiktok.com") then TikTok
    else if Contains(url, "youtube.com") || Contains(url, "youtu.be") then YouTube
    else Unknown
  }

  /** Both short-link patterns contain "tiktok.com", so they never decide anything. */
  lemma ShortLinkPatternsSubsumed(url: string)
    ensures Contains(url, "vm.tiktok.com") ==> Contains(url, "tiktok.com")
    ensures Contains(url, "vt.tiktok.com") ==> Contains(url, "tiktok.com")
  {
    assert "vm.tiktok.com" == "vm." + "tiktok.com" + "";
    assert "vt.tiktok.com" == "vt." + "tiktok.com" + "";
    if Contains(url, "vm.tiktok.com") {
      ContainsInner(url, "vm.", "tiktok.com", "");
    }
    if Contains(url, "vt.tiktok.com") {
      ContainsInner(url, "vt.", "tiktok.com", "");
    }
  }

  /** What the detector means once the redundant patterns are gone: TikTok exactly when
      "tiktok.com" occurs anywhere, YouTube exactly when it does not and "youtube.com" or
      "youtu.be" does, and unknown otherwise. */
  lemma DetectPlatformMeans(url: string)
    ensures DetectPlatform(url) == TikTok <==> Contains(url, "tiktok.com")
    ensures DetectPlatform(url) == YouTube <==>
      !Contains(url, "tiktok.com") && (Contains(url, "youtube.com") || Contains(url, "youtu.be"))
    ensures DetectPlatform(url) == Unknown <==>
      !Contains(url, "tiktok.com") && !Contains(url, "youtube.com") && !Contains(url, "youtu.be")
  {
    ShortLinkPatternsSubsumed(url);
  }

  // ---------------------------------------------------------------- download to memory

  newtype byte = x: int | 0 <= x < 256

  /** What `extract_info` returns, reduced to `info['url']` and `info['title']` (None when the
      key is missing). */
  datatype VideoInfo = VideoInfo(url: Option<string>, title: Option<string>)

  /** What `download_to_memory` returns: the bytes and `f"{title}.mp4"`, or None and the error
      text. */
  datatype Fetched = Fetched(bytes: seq<byte>, filename: string) | DownloadFailed(error: string)

  /** `str(KeyError('url'))` */
  const MissingUrlError: string := "'url'"

  /** The chunks written into the buffer, in order. */
  function Concat(chunks: seq<seq<byte>>): seq<byte>
  {
    if chunks == [] then [] else Concat(chunks[..|chunks| - 1]) + chunks[|chunks| - 1]
  }

  /** Writing two runs of chunks writes the one after the other. */
  lemma {:induction false} ConcatAppend(a: seq<seq<byte>>, b: seq<seq<byte>>)
    ensures Concat(a + b) == Concat(a) + Concat(b)
    decreases |b|
  {
    if b == [] {
      assert a + b == a;
    } else {
      var b' := b[..|b| - 1];
      assert (a + b)[..|a + b| - 1] == a + b';
      ConcatAppend(a, b');
    }
  }

  /** The chunk loop of `download_to_memory`: the buffer grows by each chunk and `total_size`
      by its length, so it is always the buffer's size. */
  method ReadChunks(chunks: seq<seq<byte>>) returns (data: seq<byte>, totalSize: nat)
    ensures data == Concat(chunks)
    ensures totalSize == |data|
  {
    data, totalSize := [], 0;
    for i := 0 to |chunks|
      invariant data == Concat(chunks[..i])
      invariant totalSize == |data|
    {
      assert chunks[..i + 1][..i] == chunks[..i];
      data := data + chunks[i];
      totalSize := totalSize + |chunks[i]|;
    }
    assert chunks[..|chunks|] == chunks;
  }

  /** What `download_to_memory(url)` returns: every error, including a missing 'url' key,
      becomes (None, message). */
  function Download(url: string, extract: string -> Result<VideoInfo>,
                    fetch: string -> Result<seq<seq<byte>>>): Fetched
  {
    match extract(url)
    case Raised(e) => DownloadFailed(e)
    case Ok(info) =>
      if info.url.None? then DownloadFailed(MissingUrlError)
      else match fetch(info.url.value)
        case Raised(e) => DownloadFailed(e)
        case Ok(chunks) => Fetched(Concat(chunks), info.title.GetOr("video") + ".mp4")
  }

  /** The file name of a download is its title, or "video", with ".mp4" appended. */
  lemma DownloadFileName(url: string, extract: string -> Result<VideoInfo>,
                         fetch: string -> Result<seq<seq<byte>>>)
    ensures var f := Download(url, extract, fetch);
      f.Fetched? ==>
        extract(url).Ok? && extract(url).value.url.Some? &&
        f.filename == extract(url).value.title.GetOr("video") + ".mp4" &&
        |f.filename| >= 4 && f.filename[|f.filename| - 4..] == ".mp4"
  {
  }

  /** `download_to_memory` */
  method DownloadToMemory(url: string, extract: string -> Result<VideoInfo>,
                          fetch: string -> Result<seq<seq<byte>>>) returns (f: Fetched)
    ensures f == Download(url, extract, fetch)
  {
    match extract(url)
    case Raised(e) =>
      f := DownloadFailed(e);
    case Ok(info) =>
      if info.url.None? {
        f := DownloadFailed(MissingUrlError);
      } else {
        match fetch(info.url.value)
        case Raised(e) =>
          f := DownloadFailed(e);
        case Ok(chunks) =>
          var data, totalSize := ReadChunks(chunks);
          f := Fetched(data, info.title.GetOr("video") + ".mp4");
      }
  }

  // ---------------------------------------------------------------- upload and summary

  /** How `upload_bytes_to_gemini` ends: the file is ready, something raised, or the source is
      still waiting. */
  datatype Upload = Uploaded | UploadRaised(error: string) | StillUploading

  /** `str(ValueError("Video processing failed"))` */
  const ProcessingFailedError: string := "Video processing failed"

  /** `upload_bytes_to_gemini`: the wait ends on any state other than PROCESSING, and only
      FAILED is an error. */
  function UploadOf(session: GeminiSession): (u: Upload)
  {
    match session.upload
    case Raised(e) => UploadRaised(e)
    case Ok(first) =>
      match Settle(first, session.refreshes)
      case RefreshRaised(e) => UploadRaised(e)
      case StillProcessing => StillUploading
      case Settled(state) => if state == Failed then UploadRaised(ProcessingFailedError) else Uploaded
  }

  /** The file is usable exactly when the wait ends on a state other than FAILED: ACTIVE, and
      also an unspecified state, pass. */
  lemma UploadedMeans(session: GeminiSession)
    ensures UploadOf(session) == Uploaded <==>
      session.upload.Ok? && Settle(session.upload.value, session.refreshes).Settled? &&
      Settle(session.upload.value, session.refreshes).state != Failed
  {
  }

  /** `upload_bytes_to_gemini`, with its poll loop. */
  method UploadBytesToGemini(session: GeminiSession) returns (u: Upload)
    ensures u == UploadOf(session)
  {
    match session.upload
    case Raised(e) =>
      u := UploadRaised(e);
    case Ok(first) =>
      var wait, refreshed := AwaitProcessing(first, session.refreshes);
      match wait
      case RefreshRaised(e) =>
        u := UploadRaised(e);
      case StillProcessing =>
        u := StillUploading;
      case Settled(state) =>
        if state == Failed {
          u := UploadRaised(ProcessingFailedError);
        } else {
          u := Uploaded;
        }
  }

  const SummaryErrorPrefix: string := "Error generating summary: "

  /** `generate_summary`: the stripped response text, or the error written into the summary.
      The deletion that follows cannot change the result. */
  function SummaryText(session: GeminiSession): string
  {
    match session.response
    case Ok(text) => Strip(text)
    case Raised(e) => SummaryErrorPrefix + e
  }

  // ---------------------------------------------------------------- the per-URL loop

  /** One element of `videos`. */
  datatype VideoEntry = VideoEntry(url: string, file: string, summary: string)

  const DownloadFailedPrefix: string := "Download failed: "
  const ProcessingFailedPrefix: string := "Processing failed: "

  /** The entry written for one URL, or None while the source would still be waiting. */
  function EntryFor(url: string, fetched: Fetched, session: GeminiSession): (e: Option<VideoEntry>)
    ensures e.Some? ==> e.value.url == url
    ensures fetched.DownloadFailed? ==> e == Some(VideoEntry(url, "N/A", DownloadFailedPrefix + fetched.error))
  {
    match fetched
    case DownloadFailed(error) => Some(VideoEntry(url, "N/A", DownloadFailedPrefix + error))
    case Fetched(_, filename) =>
      match UploadOf(session)
      case UploadRaised(error) => Some(VideoEntry(url, "N/A", ProcessingFailedPrefix + error))
      case StillUploading => None
      case Uploaded => Some(VideoEntry(url, filename, SummaryText(session)))
  }

  /** The oracles of one run. */
  datatype Services = Services(
    extract: string -> Result<VideoInfo>,
    fetch: string -> Result<seq<seq<byte>>>,
    gemini: string -> GeminiSession)

  /** The entry for `url` in a run. */
  function EntryOf(url: string, s: Services): Option<VideoEntry>
  {
    EntryFor(url, Download(url, s.extract, s.fetch), s.gemini(url))
  }

  /** How `summ_down` ends. */
  datatype Run = Videos(videos: seq<VideoEntry>) | KeyMissing(error: string) | StillWaiting(at: nat)

  const KeyMissingError: string := "Please set your Gemini API key"

  /** The entry for one URL, as the loop body computes it. */
  method ProcessUrl(url: string, s: Services) returns (e: Option<VideoEntry>)
    ensures e == EntryOf(url, s)
  {
    var fetched := DownloadToMemory(url, s.extract, s.fetch);
    if fetched.DownloadFailed? {
      return Some(VideoEntry(url, "N/A", DownloadFailedPrefix + fetched.error));
    }
    var session := s.gemini(url);
    var u := UploadBytesToGemini(session);
    match u
    case UploadRaised(error) =>
      e := Some(VideoEntry(url, "N/A", ProcessingFailedPrefix + error));
    case StillUploading =>
      e := None;
    case Uploaded =>
      e := Some(VideoEntry(url, fetched.filename, SummaryText(session)));
  }

  /** `summ_down(video_urls)`: without an API key it raises; otherwise one entry per URL, in
      order, and entry i is the one for URL i. */
  method SummDown(urls: seq<string>, apiKey: Option<string>, s: Services) returns (r: Run)
    ensures (apiKey.None? || apiKey.value == []) <==> r == KeyMissing(KeyMissingError)
    ensures r.Videos? ==> |r.videos| == |urls|
    ensures r.Videos? ==> forall i :: 0 <= i < |urls| ==> Some(r.videos[i]) == EntryOf(urls[i], s)
    ensures r.Videos? ==> forall i :: 0 <= i < |urls| ==> r.videos[i].url == urls[i]
    ensures r.StillWaiting? ==> r.at < |urls| && EntryOf(urls[r.at], s).None?
    ensures r.StillWaiting? ==> forall i :: 0 <= i < r.at ==> EntryOf(urls[i], s).Some?
    ensures apiKey.Some? && apiKey.value != [] ==>
      (r.Videos? <==> forall i :: 0 <= i < |urls| ==> EntryOf(urls[i], s).Some?)
  {
    if apiKey.None? || apiKey.value == [] {
      return KeyMissing(KeyMissingError);
    }
    var videos: seq<VideoEntry> := [];
    for i := 0 to |urls|
      invariant |videos| == i
      invariant forall j :: 0 <= j < i ==> Some(videos[j]) == EntryOf(urls[j], s)
    {
      var e := ProcessUrl(urls[i], s);
      if e.None? {
        return StillWaiting(i);
      }
      videos := videos + [e.value];
    }
    r := Videos(videos);
  }

  // ---------------------------------------------------------------- the count

  /** `'failed' in v['summary'].lower()` */
  predicate CountedFailed(v: VideoEntry)
  {
    Contains(Lower(v.summary), "failed")
  }

  /** The two counts the source prints: entries without and with "failed" in the summary. */
  function ReportedCounts(videos: seq<VideoEntry>): (counts: (nat, nat))
  {
    (|Drop(videos, CountedFailed)|, |Keep(videos, CountedFailed)|)
  }

  /** Every entry is counted once: the two counts add up to the number of entries. */
  lemma ReportedCountsAddUp(videos: seq<VideoEntry>)
    ensures ReportedCounts(videos).0 + ReportedCounts(videos).1 == |videos|
  {
    KeepDropPartition(videos, CountedFailed);
    assert |multiset(Keep(videos, CountedFailed))| + |multiset(Drop(videos, CountedFailed))| == |multiset(videos)|;
  }

  /** Lower-casing keeps an occurrence of "failed". */
  lemma FailedSurvivesLower(s: string)
    requires Contains(s, "failed")
    ensures Contains(Lower(s), "failed")
  {
    LowerContains(s, "failed");
    LowerNoUpper("failed");
  }

  /** A summary behind a failure prefix mentions "failed", whatever the error text. */
  lemma PrefixMentionsFailed(prefix: string, error: string)
    requires prefix == DownloadFailedPrefix || prefix == ProcessingFailedPrefix
    ensures Contains(Lower(prefix + error), "failed")
  {
    PrefixesSplit();
    var head := if prefix == DownloadFailedPrefix then "Download " else "Processing ";
    FailedAfter(prefix, head, error);
  }

  /** Both prefixes are a word, "failed", and a colon. */
  lemma PrefixesSplit()
    ensures DownloadFailedPrefix == "Download " + "failed" + ": "
    ensures ProcessingFailedPrefix == "Processing " + "failed" + ": "
  {
  }

  /** Whatever follows a prefix holding "failed", the lower-cased text holds it too. */
  lemma FailedAfter(prefix: string, head: string, error: string)
    requires prefix == head + "failed" + ": "
    ensures Contains(Lower(prefix + error), "failed")
  {
    assert prefix + error == head + "failed" + (": " + error);
    ContainsMiddle(head, "failed", ": " + error);
    FailedSurvivesLower(prefix + error);
  }

  /** Download and processing failures are counted as failed. */
  lemma FailureEntriesCounted(url: string, fetched: Fetched, session: GeminiSession)
    requires EntryFor(url, fetched, session).Some?
    requires fetched.DownloadFailed? || UploadOf(session).UploadRaised?
    ensures CountedFailed(EntryFor(url, fetched, session).value)
  {
    if fetched.DownloadFailed? {
      PrefixMentionsFailed(DownloadFailedPrefix, fetched.error);
    } else {
      PrefixMentionsFailed(ProcessingFailedPrefix, UploadOf(session).error);
    }
  }


  /** A prefix without any 'f' or 'F' cannot start a "failed", so it adds none to a text that
      has none. */
  lemma NoLetterFPrefix(p: string, e: string)
    requires forall i :: 0 <= i < |p| ==> p[i] != 'f' && p[i] != 'F'
    requires !Contains(Lower(e), "failed")
    ensures !Contains(Lower(p + e), "failed")
  {
    LowerAppend(p, e);
    assert forall i :: 0 <= i < |Lower(p)| ==> Lower(p)[i] != 'f';
    AbsentAfterPrefix(Lower(p), Lower(e), "failed");
  }

  /** As written, the entry of a URL whose download and upload succeeded but whose generation
      raised is counted as a success whenever the error message does not mention "failed". */
  lemma SummaryErrorCountedAsSuccess(url: string, fetched: Fetched, session: GeminiSession)
    requires fetched.Fetched? && UploadOf(session) == Uploaded && session.response.Raised?
    requires !Contains(Lower(session.response.error), "failed")
    ensures EntryFor(url, fetched, session).Some?
    ensures EntryFor(url, fetched, session).value.summary == SummaryErrorPrefix + session.response.error
    ensures ReportedCounts([EntryFor(url, fetched, session).value]) == (1, 0)
  {
    var v := EntryFor(url, fetched, session).value;
    assert forall i :: 0 <= i < |SummaryErrorPrefix| ==>
      SummaryErrorPrefix[i] != 'f' && SummaryErrorPrefix[i] != 'F';
    NoLetterFPrefix(SummaryErrorPrefix, session.response.error);
    assert !CountedFailed(v);
    assert [v][..0] == [];
  }

  /** The count as evidently intended: an entry is failed when its summary mentions "failed" or
      is the error of a failed generation. */
  predicate IsFailedEntry(v: VideoEntry)
  {
    CountedFailed(v) || StartsWith(v.summary, SummaryErrorPrefix)
  }

  function Counts(videos: seq<VideoEntry>): (counts: (nat, nat))
  {
    (|Drop(videos, IsFailedEntry)|, |Keep(videos, IsFailedEntry)|)
  }

  /** The corrected counts add up to the number of entries. */
  lemma CountsAddUp(videos: seq<VideoEntry>)
    ensures Counts(videos).0 + Counts(videos).1 == |videos|
  {
    KeepDropPartition(videos, IsFailedEntry);
    assert |multiset(Keep(videos, IsFailedEntry))| + |multiset(Drop(videos, IsFailedEntry))| == |multiset(videos)|;
  }

  /** The corrected count puts every failure of a URL, a failed generation included, among the
      failed. */
  lemma AllFailuresCounted(url: string, fetched: Fetched, session: GeminiSession)
    requires EntryFor(url, fetched, session).Some?
    requires fetched.DownloadFailed? || UploadOf(session).UploadRaised? || session.response.Raised?
    ensures IsFailedEntry(EntryFor(url, fetched, session).value)
  {
    if fetched.DownloadFailed? || UploadOf(session).UploadRaised? {
      FailureEntriesCounted(url, fetched, session);
    } else {
      var summary := SummaryErrorPrefix + session.response.error;
      assert summary[..|SummaryErrorPrefix|] == SummaryErrorPrefix;
    }
  }
}
