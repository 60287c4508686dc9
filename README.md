# Trend-to-video tools, modelled in Dafny

This project models the tool layer of a trend-to-video pipeline. The layer has six parts:

- **Scrapers.** They take trending searches from Google Trends, TikTok search results and
  hashtags from Google, TikTok and YouTube pages. They merge the hashtags into one ranked
  list with no duplicates, and they fetch content for each hashtag.
- **Downloaders.** They recognise TikTok and YouTube URLs, turn YouTube URLs into Shorts
  URLs, and download each video.
- **Analysers.** They upload each downloaded video to Gemini, wait for it to be processed,
  and parse the JSON "viral blueprint" it returns. Anything that fails gets a fallback
  analysis.
- **Combiner.** It builds a Transcoder job that joins several videos and polls the job until
  it finishes.
- **Generator.** It starts Veo video generations and waits for each one to finish.
- **Batch drivers.** They run the analysers and the generators over lists of inputs and
  count the results.

Each source file is one Dafny module:

| module | file |
|---|---|
| `Combine` | manager/tools/combine.py |
| `SummDown` | manager/tools/summ_down.py |
| `Testing` | manager/tools/testing.py |
| `CombineVideo` | manager/tools/combine_video.py |
| `VidGeneration` | manager/tools/vid_generation.py |
| `GoogleScrapper` | manager/tools/google_scrapper.py |
| `ScrapeTikTok` | manager/tools/scrape_tiktok.py |
| `Scrapper` | manager/tools/hashtag_analyzer/scrapper.py |

Some modules are shared:

- `Base`: Option, Result and Outcome.
- `Text`: string helpers with ASCII `\w` and `lower`.
- `Json`: JSON values, with Python's `in` and `[]` on them.
- `UrlPatterns`: the URL regular expressions, written as predicates.
- `GeminiPolling`: the Gemini upload-and-wait loop.
- `Seqs` and `Sorting`: filters, distinct elements, and the stable descending sort behind
  `sorted(..., reverse=True)`.

## How the outside world is modelled

Every external service is an oracle.

- **Services become function parameters.** yt-dlp, Apify actors, Selenium element lookups,
  Gemini, Veo, Transcoder, HTTP and `json.loads` are each passed in as a function. A
  function gives one fixed answer per argument.
- **Polling loops read finite traces.** Each `while state == PROCESSING`, `while not done`
  or `while True` loop reads a sequence of observations. If the sequence runs out, the
  source would still be waiting. The model reports this as `StillProcessing`,
  `StillPolling`, `StillGenerating` or `StillWaiting`.
- **State stays local.** The source builds lists and dicts inside its loops. The model
  writes these loops as methods with `while` or `for` loops over local `seq` and `map`
  values. Each method is proved equal to a specification function, and the properties are
  proved about that function.
- **Dicts keep insertion order.** A Python dict whose order matters is a key sequence plus
  a `map`, for example the hashtag counts of `get_youtube_hashtags`, the deduplication
  in `get_all_trending_hashtags`, and the result dict of `analyze_hashtag_content`, which
  `analyze_trending_content` walks in that order.

## Behaviour of the code worth knowing

- **Batch generation stops at the first failure.** `batch_vid_generation`
  (vid_generation.py:25-54) raises at the first failure and returns no placeholder for it.
  The model returns `Stopped(at, reason)`.
- **Batch analysis is not index-aligned.** `VideoProcessor.process` (summ_down.py:882-935)
  returns the download failures first and the analyses after them. Each group keeps input
  order, so the result is a stable partition.
- **There is no deadline.** No poll loop has a deadline or a "timed out" result; every one
  is unbounded. In the model, running out of a trace stands for "still waiting".
- **The fallback analysis is not all "unknown".** `create_error_analysis`
  (summ_down.py:759-776) sets:
  - `hook_pattern` to `"Error: " + message`;
  - the two lists to `["analysis_failed"]` and `["unable_to_analyze"]`;
  - `characters` to `["unknown"]`.
- **Uploaded files are deleted only after generation.** `analyze_video`
  (summ_down.py:836-841) deletes the uploaded file only once `generate_content` has
  returned. When an earlier step raises, the file stays.
- **Scrapers do not deduplicate by URL.** Content lists keep every item each search
  returns.
- **Merge failures have no error of their own.** A failed merge raises a plain
  `RuntimeError("❌ Transcoding job failed.")`. The model returns `JobFailed`.

## Model

| member | source | states |
|---|---|---|
| `UrlPatterns.AfterScheme` | manager/tools/summ_down.py:650-658 | The optional `https?://` is consumed, and what is left is a suffix of the URL. |
| `UrlPatterns.TikTokYouTubeDisjoint` | manager/tools/summ_down.py:649-666 | No URL matches both a TikTok pattern and a YouTube pattern. So the order in which the patterns are tried cannot change the answer. |
| `UrlPatterns.TikTokMobileDisjoint` | manager/tools/combine.py:141-156 | No URL matches both a TikTok pattern and the extra `m.youtube.com/watch` pattern. |
| `UrlPatterns.TikTokUrlExtend` | manager/tools/summ_down.py:649-661 | `re.match` anchors only at the start: text appended to a TikTok URL does not change its match. |
| `UrlPatterns.YouTubeUrlExtend` | manager/tools/summ_down.py:655-663 | Text appended to a YouTube URL does not change its match. |
| `UrlPatterns.MobileWatchUrlExtend` | manager/tools/combine.py:151 | Text appended to a mobile watch URL does not change its match. |
| `Json.PyIn` | manager/tools/summ_down.py:738 | Python `key in v`: dict-key membership on a dict. It raises exactly on `None`, booleans and numbers. |
| `Json.PySubscript` | manager/tools/summ_down.py:742 | `v[key]` succeeds exactly when `v` is a dict that has the key, and then returns that key's value. |
| `Json.Get` | manager/tools/scrape_tiktok.py:44-46 | `dict.get(key, default)`: the key's value when the key is present, otherwise the default. |
| `Text.Lower` | manager/tools/combine.py:280-281 | Keeps the length and lowercases each character. |
| `Text.LowerContains` | manager/tools/combine.py:280-283 | A substring of a string stays a substring after both are lowercased. |
| `Text.RemoveChar` | manager/tools/hashtag_analyzer/scrapper.py:314 | `replace('#', '')`: the result has none of the removed character, takes every character from the input, and is shorter by the number of occurrences. |
| `Text.RemoveCharSingle` | manager/tools/hashtag_analyzer/scrapper.py:314 | On one character, the removal drops it exactly when it is the removed one. |
| `Text.RemoveCharAppend` | manager/tools/hashtag_analyzer/scrapper.py:314 | Removing a character from a concatenation removes it from each part and keeps the parts in order, so every other character keeps its place. |
| `Text.ReplaceChar` | manager/tools/hashtag_analyzer/scrapper.py:378 | `replace('#', '%23')`: the length grows by the number of occurrences times the growth in length, and the character is gone whenever the replacement does not contain it. |
| `Text.ReplaceCharSingle` | manager/tools/hashtag_analyzer/scrapper.py:378 | On one character, the replacement gives the replacement text exactly when it is the replaced one. |
| `Text.ReplaceCharAppend` | manager/tools/hashtag_analyzer/scrapper.py:378 | Replacing in a concatenation replaces in each part and keeps the parts in order, so every other character keeps its place. |
| `Text.ReplaceCharAbsent` | manager/tools/hashtag_analyzer/scrapper.py:378 | A string without the character is left unchanged. |
| `Text.FindChar` | manager/tools/summ_down.py:727 | `str.find`: the first index holding the character, or -1 when there is none. |
| `Text.RFindChar` | manager/tools/summ_down.py:728 | `str.rfind`: the last index holding the character, or -1 when there is none. |
| `Text.NatToStringRoundTrip` | manager/tools/combine_video.py:32-33 | Reading the decimal text of `n` back gives `n`. |
| `Text.NatToStringInjective` | manager/tools/combine_video.py:32-33 | Different numbers have different decimal texts, so the `input{i}` keys are distinct. |
| `Sorting.SortDescSorted` | manager/tools/hashtag_analyzer/scrapper.py:243 | `sorted(key, reverse=True)` is non-increasing in the key and is a permutation of its input. |
| `Sorting.SortDescStable` | manager/tools/hashtag_analyzer/scrapper.py:209 | The sort is stable: elements with equal keys keep their input order. |
| `GeminiPolling.AwaitProcessing` | manager/tools/summ_down.py:791-795 | The `while state == PROCESSING` loop. It stops at the first refresh that is not PROCESSING or that raises. Every state seen before that was PROCESSING. It reports `StillProcessing` only when the trace runs out while still PROCESSING. |
| `Combine.DetectPlatform` | manager/tools/combine.py:129-159 | TikTok exactly when a TikTok pattern matches. YouTube exactly when a YouTube pattern or the mobile watch pattern matches. |
| `Combine.DetectorsDifferOnlyOnMobile` | manager/tools/combine.py:151 | This detector and the one in summ_down.py disagree exactly on mobile watch URLs, which only this one calls YouTube. |
| `Combine.MobileWatchExample` | manager/tools/combine.py:151 | A concrete `m.youtube.com/watch` URL is YouTube here and unknown in summ_down.py. |
| `Combine.ValidUrlsExclusive` | manager/tools/combine.py:161-167 | `is_valid_tiktok_url` and `is_valid_youtube_url` are never both true, and each agrees with the detector. |
| `Combine.ShortsMarkerAnyCase` | manager/tools/combine.py:280-283 | "shorts" in the title or description, in any letter case, makes a video a Short. |
| `Combine.LongLandscapeIsNotShort` | manager/tools/combine.py:271-293 | A video with none of the three conditions is not a Short: its duration is missing, 0 or above 60 s; it has no "shorts" marker; and it is not taller than wide. |
| `Combine.IdRun` | manager/tools/combine.py:297-300 | `[a-zA-Z0-9_-]+` takes the longest prefix of id characters. |
| `Combine.SearchIdNone` | manager/tools/combine.py:302-306 | `re.search` finds nothing exactly when the pattern matches at no position. |
| `Combine.SearchIdLeftmost` | manager/tools/combine.py:302-306 | `re.search` returns the match at the leftmost position that matches. |
| `Combine.VideoId` | manager/tools/combine.py:297-306 | An extracted video id is non-empty and made only of id characters. |
| `Combine.ConvertToShortsUrl` | manager/tools/combine.py:295-308 | The result is either the unchanged URL or `https://www.youtube.com/shorts/` followed by a valid id. |
| `Combine.WatchUrlConverted` | manager/tools/combine.py:297-306 | A `youtube.com/watch?v=ID` URL becomes the Shorts URL of ID. |
| `Combine.ShortsUrlMissesFirstPattern` | manager/tools/combine.py:297 | The watch/short-link pattern matches nowhere in a Shorts URL. |
| `Combine.ShortsUrlMatchesSecondPattern` | manager/tools/combine.py:298 | In a Shorts URL, the `/shorts/` pattern finds exactly the URL's own id. |
| `Combine.ConvertShortsUrlIsFixed` | manager/tools/combine.py:295-308 | Converting a Shorts URL gives back the same URL. |
| `Combine.ConvertToShortsUrlIdempotent` | manager/tools/combine.py:295-308 | Converting twice gives the same as converting once. |
| `Combine.ConvertedUrlIsYouTube` | manager/tools/combine.py:295-308 | Whenever the conversion changes a URL, the new URL is detected as YouTube. |
| `Combine.ShortsUrlIsYouTube` | manager/tools/combine.py:144-150 | Every Shorts URL matches a YouTube pattern. |
| `Combine.DownloadVideo` | manager/tools/combine.py:430-451 | Success only for a recognised platform. A TikTok URL goes to the TikTok downloader and a YouTube URL to the YouTube downloader. |
| `Combine.CountDownloads` | manager/tools/combine.py:465-479 | The counting loop gives exactly the summary function of the URLs. |
| `Combine.DownloadMultipleVideos` | manager/tools/combine.py:453-489 | The batch summary is the summary of detecting and downloading each URL in order. |
| `Combine.SummaryBounds` | manager/tools/combine.py:465-479 | Successful plus failed equals the number of URLs. TikTok plus YouTube is at most that. Successes are at most the recognised URLs. |
| `Combine.DownloadMultipleVideosBounds` | manager/tools/combine.py:453-489 | For the real downloader, the summary keeps the same bounds. |
| `SummDown.DetectPlatform` | manager/tools/summ_down.py:645-669 | Each of TikTok, YouTube and unknown holds exactly when its pattern family matches (or, for unknown, neither matches). |
| `SummDown.DetectPlatformIgnoresSuffix` | manager/tools/summ_down.py:661-666 | Appending text to a recognised URL keeps its platform. |
| `SummDown.DownloadSingleVideo` | manager/tools/summ_down.py:671-717 | An unsupported URL gives no path. A supported URL gives the downloader's result for its platform. |
| `SummDown.UnsupportedNeverFetched` | manager/tools/summ_down.py:675-679 | For an unsupported URL the downloader is never consulted: any two downloaders give the same `None`. |
| `SummDown.FirstMissing` | manager/tools/summ_down.py:736-747 | The field check passes exactly when `in` finds every field. On a dict, a failure names a field that is really missing. |
| `SummDown.ValidateMeans` | manager/tools/summ_down.py:736-747 | Validation passes exactly when the data is a dict with the four required keys and `in` finds all nine blueprint names in its blueprint. |
| `SummDown.ListBlueprintPasses` | manager/tools/summ_down.py:742-747 | The check uses `in`, so a blueprint that is a list of the nine names also passes. |
| `SummDown.FallbackBlueprintComplete` | manager/tools/summ_down.py:765-775 | The fallback blueprint has all nine fields. |
| `SummDown.FallbackFieldsValid` | manager/tools/summ_down.py:759-776 | The fallback dict passes the whole validation. |
| `SummDown.ErrorAnalysis` | manager/tools/summ_down.py:759-776 | The fallback analysis always passes validation, and its hook pattern is `"Error: "` followed by the message. |
| `SummDown.ErrorAnalysisPlaceholders` | manager/tools/summ_down.py:762-765 | The lists are `["analysis_failed"]` and `["unable_to_analyze"]`, and the blueprint is the fallback blueprint. |
| `SummDown.FallbackBlueprintPlaceholders` | manager/tools/summ_down.py:765-775 | The fallback blueprint has no key beyond the nine names. `characters` is `["unknown"]` and every other field is "unknown". |
| `SummDown.ExtractJsonText` | manager/tools/summ_down.py:723-730 | Without a leading ```` ```json ```` fence, the stripped response is parsed as it is. |
| `SummDown.ExtractFenced` | manager/tools/summ_down.py:726-730 | Inside a fence, the parsed text runs from the first `{` to the last `}`. |
| `SummDown.Analysis.AsJson` | manager/tools/summ_down.py:749-757 | Both kinds of analysis give a dict that passes validation, provided a parsed one was validated. |
| `SummDown.ParseOutcome` | manager/tools/summ_down.py:719-757 | The parse is real exactly when `json.loads` succeeds on the extracted text and the result validates. |
| `SummDown.ParseJsonResponse` | manager/tools/summ_down.py:719-757 | The result always validates. It is the parsed data whenever that parses and validates. |
| `SummDown.ParseJsonResponseFailures` | manager/tools/summ_down.py:751-757 | A decode error gives the fallback with "Invalid JSON response: ". A validation error gives the fallback with "Analysis validation failed: ". |
| `SummDown.AnalysisOf` | manager/tools/summ_down.py:778-859 | A real analysis implies all of: the upload succeeded, polling settled on a state other than FAILED, generation succeeded, the file was deleted, and the analysis is the parse of the response. |
| `SummDown.AnalyzeVideo` | manager/tools/summ_down.py:778-859 | Gives the entry of the URL with the analysis of its Gemini session, which always validates. |
| `SummDown.Downloads` | manager/tools/summ_down.py:896-907 | Every kept pair holds a URL and the non-empty path its download returned. |
| `SummDown.FailureEntries` | manager/tools/summ_down.py:902-907 | One "Download failed" fallback entry per failed URL, in order. |
| `SummDown.AnalysisEntries` | manager/tools/summ_down.py:913-916 | One entry per downloaded pair, in order, holding that file's analysis. |
| `SummDown.DownloadPhase` | manager/tools/summ_down.py:896-907 | The download loop gives the failure entries of the failed URLs and the downloaded pairs. |
| `SummDown.DownloadStep` | manager/tools/summ_down.py:898-907 | One URL adds exactly one pair when its path is truthy, and otherwise exactly one failure. |
| `SummDown.AnalysisPhase` | manager/tools/summ_down.py:913-916 | The analysis loop gives exactly the analysis entries. |
| `SummDown.Process` | manager/tools/summ_down.py:882-935 | `process` gives the failure entries followed by the analysis entries. |
| `SummDown.DownloadsKeepOrder` | manager/tools/summ_down.py:896-907 | The downloaded URLs are the found URLs in input order. |
| `SummDown.DownloadPhasePartitions` | manager/tools/summ_down.py:896-907 | The failed and downloaded URLs together are exactly the input URLs, as a multiset. |
| `SummDown.ProcessResultUrls` | manager/tools/summ_down.py:882-935 | The result's URLs are the failed URLs followed by the downloaded URLs. |
| `SummDown.ProcessOneEntryPerUrl` | manager/tools/summ_down.py:882-935 | One entry per input URL, with the same URLs as a multiset. Every analysis validates. |
| `SummDown.ProcessKeepsInputOrder` | manager/tools/summ_down.py:882-935 | A stable partition: the failures in input order, then the found URLs in input order. Every leading entry is a "Download failed" fallback. |
| `SummDown.AnalysisIsDict` | manager/tools/summ_down.py:928-929 | Every analysis is a dict, so the success count's `in` never raises. |
| `SummDown.CountSuccessful` | manager/tools/summ_down.py:928-929 | The success count is at most the number of entries. |
| `SummDown.FallbackCountedFailed` | manager/tools/summ_down.py:928-929 | A fallback always counts as failed, because its `hook_pattern` is "Error: " followed by the reason and so contains "Error". |
| `SummDown.SuccessMeansRealAnalysis` | manager/tools/summ_down.py:778-859 | An entry counted as successful had all of: a real upload, a non-FAILED state, a response, a deletion, and a valid parse. |
| `SummDown.FailureEntriesCountNothing` | manager/tools/summ_down.py:902-907 | Download-failure entries never count as successes. |
| `SummDown.SuccessesAtMostDownloads` | manager/tools/summ_down.py:928-929 | Successes are at most the downloaded videos. |
| `SummDown.Pad2` | manager/tools/summ_down.py:866 | `:02d`: at least two digits that read back as the number, exactly two below 100. |
| `SummDown.ClockFields` | manager/tools/summ_down.py:863-865 | Hours, minutes and seconds recombine to the total, with minutes and seconds below 60. |
| `SummDown.ParseClockFields` | manager/tools/summ_down.py:866 | `H:M:S` text parses back into its three fields. |
| `SummDown.FormatProcessingTimeRoundTrip` | manager/tools/summ_down.py:861-866 | Parsing the formatted time gives back the number of seconds. |
| `SummDown.FormatProcessingTimeShape` | manager/tools/summ_down.py:861-866 | The text has at least 8 characters with colons at positions -3 and -6. |
| `Testing.ShortLinkPatternsSubsumed` | manager/tools/testing.py:196 | The `vm.` and `vt.` patterns add nothing beyond "tiktok.com". |
| `Testing.DetectPlatformMeans` | manager/tools/testing.py:195-203 | TikTok exactly when the URL contains "tiktok.com". YouTube exactly when it does not but contains "youtube.com" or "youtu.be". Otherwise unknown. |
| `Testing.ReadChunks` | manager/tools/testing.py:228-232 | The bytes read are the chunks concatenated, and the size is their length. |
| `Testing.DownloadFileName` | manager/tools/testing.py:205-239 | A successful download is named after the title (or "video"), followed by ".mp4". |
| `Testing.DownloadToMemory` | manager/tools/testing.py:205-239 | Equals the download function of the extractor and the fetcher. |
| `Testing.UploadedMeans` | manager/tools/testing.py:241-280 | An upload succeeds exactly when the file was created and polling settled on a state other than FAILED. |
| `Testing.UploadBytesToGemini` | manager/tools/testing.py:241-280 | The upload loop equals the upload function. |
| `Testing.EntryFor` | manager/tools/testing.py:315-349 | Each entry carries its URL. A failed download gives a "Download failed: " entry. |
| `Testing.ProcessUrl` | manager/tools/testing.py:315-349 | One loop iteration gives exactly the entry function. |
| `Testing.SummDown` | manager/tools/testing.py:186-353 | A missing or empty key gives the key error, and only then. Otherwise the result is one entry per URL, in order, unless some service is still pending. |
| `Testing.ReportedCountsAddUp` | manager/tools/testing.py:351-352 | The reported successful and failed counts add up to the number of videos. |
| `Testing.PrefixMentionsFailed` | manager/tools/testing.py:323-349 | Download and processing failure summaries contain "failed" after lowercasing. |
| `Testing.FailureEntriesCounted` | manager/tools/testing.py:323-349 | Download and upload failures are counted as failed. |
| `Testing.SummaryErrorCountedAsSuccess` | manager/tools/testing.py:297-299 | As written: for any URL whose download and upload succeeded and whose generation raised an error whose lowercase form does not contain "failed", the entry reads "Error generating summary: " plus the error and is counted 1 successful, 0 failed. |
| `Testing.CountsAddUp` | manager/tools/testing.py:351-352 | With the corrected test, the counts still add up to the number of videos. |
| `Testing.AllFailuresCounted` | manager/tools/testing.py:297-349 | With the corrected test, every failure counts as failed: download, upload and generation. |
| `CombineVideo.InputKeysDistinct` | manager/tools/combine_video.py:32-33 | The `input{i}` keys of different indexes differ. |
| `CombineVideo.BuildJobConfig` | manager/tools/combine_video.py:29-61 | The built config has one input and one edit atom per link, in order, with the fixed output format. |
| `CombineVideo.EditListFollowsLinks` | manager/tools/combine_video.py:29-61 | Each edit atom has one input present in the inputs. Following the atoms gives back the links in order. |
| `CombineVideo.JobOutcomeSucceeds` | manager/tools/combine_video.py:75-86 | The result is the output file exactly when a SUCCEEDED poll follows only in-progress polls. |
| `CombineVideo.JobOutcomeFails` | manager/tools/combine_video.py:75-84 | The job fails exactly when a FAILED poll follows only in-progress polls. |
| `CombineVideo.PollJob` | manager/tools/combine_video.py:75-84 | The poll loop stops at the first poll that is not in progress. `StillPolling` means the trace ran out while in progress. |
| `CombineVideo.CombineVideos` | manager/tools/combine_video.py:4-86 | The submitted job has the given parent, output URI and config. A raise from job creation is passed on. Otherwise the result is the poll outcome for `gs://bucket/user/final_combined.mp4`. The region defaults to `us-central1`. |
| `VidGeneration.FileReference` | manager/tools/vid_generation.py:19-20 | A file reference exists exactly when the operation has a result, the result has a non-empty `generated_videos` list, and its first entry has a `video`. It is that video's name. Each failing step raises its own Python error: no attribute 'generated_videos' on a missing result, "not subscriptable" on a None list, "list index out of range" on an empty list, and no attribute 'name' on a None video. |
| `VidGeneration.Await` | manager/tools/vid_generation.py:14-16 | A finished wait ends on a done operation. |
| `VidGeneration.AwaitFindsFirstDone` | manager/tools/vid_generation.py:14-16 | The wait finishes on an operation exactly when that is the first done one seen. |
| `VidGeneration.AwaitOperation` | manager/tools/vid_generation.py:14-16 | The `while not operation.done` loop equals the wait function, and every refresh before the stop was pending. |
| `VidGeneration.GenerationOnlyWhenDone` | manager/tools/vid_generation.py:7-22 | A file reference comes only from a started generation that was seen done. |
| `VidGeneration.VidGenerationOf` | manager/tools/vid_generation.py:7-22 | `vid_generation` equals the generation function of the service's trace. |
| `VidGeneration.BatchVidGeneration` | manager/tools/vid_generation.py:25-54 | All references, in order, exactly when every generation succeeds. Otherwise it stops at the first failure, after only successes. |
| `GoogleScrapper.RunInput` | manager/tools/google_scrapper.py:21-31 | The country the actor reads is always "US". The country argument goes only under the misspelt key. |
| `GoogleScrapper.CountryIgnored` | manager/tools/google_scrapper.py:28-30 | Two countries give the same input except under the misspelt key. |
| `GoogleScrapper.TopFive` | manager/tools/google_scrapper.py:40 | `[:5]` on a list keeps its first five elements. Any success has at most five. |
| `GoogleScrapper.EntryOf` | manager/tools/google_scrapper.py:41-45 | An entry is built exactly when the trend is a dict with both keys, and it holds their values. |
| `GoogleScrapper.Entries` | manager/tools/google_scrapper.py:40-45 | All trends convert, giving one entry each, or the first error is passed on. |
| `GoogleScrapper.EntriesInOrder` | manager/tools/google_scrapper.py:40-45 | Entry i is the conversion of trend i. |
| `GoogleScrapper.Contribution` | manager/tools/google_scrapper.py:39-45 | An item without the key adds nothing. Any item adds at most five entries. |
| `GoogleScrapper.FlattenBound` | manager/tools/google_scrapper.py:37-47 | At most five entries per item that has trends. |
| `GoogleScrapper.FlattenAppend` | manager/tools/google_scrapper.py:37-47 | Flattening more items keeps the earlier entries in front. |
| `GoogleScrapper.FlattenStopsAtError` | manager/tools/google_scrapper.py:37-47 | The first item that raises ends the whole run with its error. |
| `GoogleScrapper.FlattenItems` | manager/tools/google_scrapper.py:37-47 | The nested loops equal the flattening function. |
| `GoogleScrapper.EntriesStopAtError` | manager/tools/google_scrapper.py:41-45 | An error among the first trends is the error of the whole list. |
| `GoogleScrapper.FetchTrendingSearches` | manager/tools/google_scrapper.py:7-47 | An actor error is passed on. Otherwise the result is the flattening of the dataset. |
| `ScrapeTikTok.RunInput` | manager/tools/scrape_tiktok.py:19-35 | The input asks for the page size, searches for the category alone, and uses the US proxy. |
| `ScrapeTikTok.RunInputIgnoresRegion` | manager/tools/scrape_tiktok.py:9-35 | The region has no effect on the input, and the default page size is 3. |
| `ScrapeTikTok.VideoOf` | manager/tools/scrape_tiktok.py:44-46 | Title, URL and view count come from `text`, `webVideoUrl` and `playCount`. When a key is missing, they default to "", "" and 0. |
| `ScrapeTikTok.MapItems` | manager/tools/scrape_tiktok.py:41-47 | One video per dataset item, in order. |
| `ScrapeTikTok.ScrapeTikTok` | manager/tools/scrape_tiktok.py:9-49 | An actor error is passed on. Otherwise the result is the mapped items, one per item, in order. The page size defaults to 3. |
| `Scrapper.ScoredEntries` | manager/tools/hashtag_analyzer/scrapper.py:92-102 | Every entry is tagged with the platform and category, and scored `top - index` from the element that produced it. Scores strictly decrease. |
| `Scrapper.ScoredEntriesComplete` | manager/tools/hashtag_analyzer/scrapper.py:92-102 | Every element that yields a tag produces an entry with its score. |
| `Scrapper.ScoreElements` | manager/tools/hashtag_analyzer/scrapper.py:92-102 | The enumerate loop equals the scoring function. |
| `Scrapper.GoogleHashtag` | manager/tools/hashtag_analyzer/scrapper.py:96 | Starts with `#`, and then holds only characters that are word characters or whitespace, are not ' ' and are not uppercase ASCII letters. Tabs and other whitespace can remain; punctuation cannot. |
| `Scrapper.GoogleHashtagIdempotent` | manager/tools/hashtag_analyzer/scrapper.py:96 | Normalising an already normalised tag gives the same tag. |
| `Scrapper.GoogleTag` | manager/tools/hashtag_analyzer/scrapper.py:95-97 | Every tag accepted from a Google element is normalised. |
| `Scrapper.GoogleTrendsHashtags` | manager/tools/hashtag_analyzer/scrapper.py:75-107 | No page gives no tags. Otherwise the result is the scored entries of the first 20 elements. |
| `Scrapper.GoogleHashtagNoBlank` | manager/tools/hashtag_analyzer/scrapper.py:96 | A normalised tag has no spaces. |
| `Scrapper.GoogleTrendsShape` | manager/tools/hashtag_analyzer/scrapper.py:92-102 | At most 20 entries, scores within 1..20, and every tag normalised. |
| `Scrapper.DiscoverTag` | manager/tools/hashtag_analyzer/scrapper.py:131-133 | A tag accepted from a TikTok element starts with `#`. |
| `Scrapper.ScanSelectors` | manager/tools/hashtag_analyzer/scrapper.py:120-142 | The selector loop, with its `break` once it has entries, equals the scan function. |
| `Scrapper.SelectorScanShape` | manager/tools/hashtag_analyzer/scrapper.py:127-142 | At most 15 entries, with scores in 1..15 that strictly decrease, each a TikTok `#` tag. |
| `Scrapper.SelectorEntriesShape` | manager/tools/hashtag_analyzer/scrapper.py:128-138 | One selector gives at most 15 strictly-decreasing TikTok `#` entries. |
| `Scrapper.FindTags` | manager/tools/hashtag_analyzer/scrapper.py:147-148 | Each match of `#[a-zA-Z0-9_]+` (and of the longer pattern at line 147, which matches the same runs) is `#` followed by one or more characters of the ASCII class `[a-zA-Z0-9_]`. |
| `Scrapper.FindTagsTag` | manager/tools/hashtag_analyzer/scrapper.py:147-148 | `#word` followed by a non-word character is matched whole, and the scan continues after it. |
| `Scrapper.SetListing` | manager/tools/hashtag_analyzer/scrapper.py:150 | Some listing of a set holds each member exactly once. |
| `Scrapper.PageSourceHashtags` | manager/tools/hashtag_analyzer/scrapper.py:145-157 | Some iteration order of `set(found)` gives the result: the first 10, keeping tags longer than two, scored from 10 down. |
| `Scrapper.TikTokHashtags` | manager/tools/hashtag_analyzer/scrapper.py:109-162 | No page gives no tags. The selector entries are used when there are any; otherwise the page-source fallback is used. |
| `Scrapper.ExtractedShape` | manager/tools/hashtag_analyzer/scrapper.py:150-157 | At most 10 entries, scores within 1..10, each tag found in the page and longer than two, and no tag twice. |
| `Scrapper.ExtractedComplete` | manager/tools/hashtag_analyzer/scrapper.py:150-157 | With at most ten distinct tags, every found tag longer than two appears. |
| `Scrapper.TallyStep` | manager/tools/hashtag_analyzer/scrapper.py:198-199 | One `dict[h] = dict.get(h, 0) + 1` step keeps the keys first-seen ordered and the counts equal to the occurrences. |
| `Scrapper.CountTags` | manager/tools/hashtag_analyzer/scrapper.py:197-199 | The loop over one description's tags keeps the tally invariant. |
| `Scrapper.TagCounts` | manager/tools/hashtag_analyzer/scrapper.py:177-205 | The items are the distinct tags in first-seen order, each with its number of occurrences. |
| `Scrapper.CountVideos` | manager/tools/hashtag_analyzer/scrapper.py:181-205 | The loop over the videos tallies all their tags. |
| `Scrapper.TallyItems` | manager/tools/hashtag_analyzer/scrapper.py:209 | A tally's `items()` are exactly the tag counts. |
| `Scrapper.RankTags` | manager/tools/hashtag_analyzer/scrapper.py:209-216 | The ranking loop equals the ranking function of the tags. |
| `Scrapper.YouTubeHashtags` | manager/tools/hashtag_analyzer/scrapper.py:164-221 | No page gives no tags. Otherwise the result is the ranking of the tags of the first 20 videos. |
| `Scrapper.YouTubeRankingItems` | manager/tools/hashtag_analyzer/scrapper.py:209-216 | At most 10 entries. Entry k is the k-th sorted count, with tag, score and platform set. |
| `Scrapper.YouTubeRankingCounts` | manager/tools/hashtag_analyzer/scrapper.py:209-216 | Each entry's score is the number of times its tag occurs. |
| `Scrapper.YouTubeRankingOrder` | manager/tools/hashtag_analyzer/scrapper.py:209-216 | Scores never increase, and no tag appears twice. |
| `Scrapper.YouTubeRankingTop` | manager/tools/hashtag_analyzer/scrapper.py:209-216 | A tag left out of the ranking occurs at most as often as every ranked tag. |
| `Scrapper.Best` | manager/tools/hashtag_analyzer/scrapper.py:237-241 | There is a kept entry for a key exactly when some hashtag lowercases to it, and the kept entry does. |
| `Scrapper.BestIsMaximum` | manager/tools/hashtag_analyzer/scrapper.py:240-241 | The kept entry has the highest score for its key. |
| `Scrapper.BestIsFirst` | manager/tools/hashtag_analyzer/scrapper.py:240-241 | Of equal top scores, the first one seen is kept, because the comparison is strict. |
| `Scrapper.AdmitStep` | manager/tools/hashtag_analyzer/scrapper.py:237-241 | One step of the deduplication keeps its invariant. |
| `Scrapper.AdmitNext` | manager/tools/hashtag_analyzer/scrapper.py:237-241 | The same step, for the i-th entry of the list being deduplicated. |
| `Scrapper.Deduplicate` | manager/tools/hashtag_analyzer/scrapper.py:237-241 | The loop gives the keys in first-seen order, and each key's best entry. |
| `Scrapper.Merged` | manager/tools/hashtag_analyzer/scrapper.py:237-243 | One best entry per distinct lowercase key, in first-seen order. |
| `Scrapper.GetAllTrendingHashtags` | manager/tools/hashtag_analyzer/scrapper.py:223-243 | The result is the merged entries of the three sources, sorted by score. |
| `Scrapper.AllTrendingUnique` | manager/tools/hashtag_analyzer/scrapper.py:223-243 | Sorted by score, one entry per distinct lowercase key, with no key twice. |
| `Scrapper.AllTrendingChosen` | manager/tools/hashtag_analyzer/scrapper.py:237-243 | Every result entry is the best entry for its key. |
| `Scrapper.AllTrendingCovers` | manager/tools/hashtag_analyzer/scrapper.py:237-243 | Every input hashtag's key appears in the result. |
| `Scrapper.TikTokTagUrl` | manager/tools/hashtag_analyzer/scrapper.py:314-315 | The URL starts with the tag prefix, has no `#` after it, and is shorter than prefix plus name by the number of `#`. |
| `Scrapper.TikTokTagUrlSnoc` | manager/tools/hashtag_analyzer/scrapper.py:314-315 | Read character by character, a `#` adds nothing and every other character is appended as it is, so the other characters stay in order. |
| `Scrapper.TikTokTagUrlIgnoresHash` | manager/tools/hashtag_analyzer/scrapper.py:314 | A leading `#` does not change the URL. |
| `Scrapper.TikTokTagUrlOfPlainName` | manager/tools/hashtag_analyzer/scrapper.py:314-315 | A name without `#` is appended as it is. |
| `Scrapper.YouTubeSearchUrl` | manager/tools/hashtag_analyzer/scrapper.py:378-379 | `#` is encoded as `%23`: the URL has no `#` after the prefix and is longer by two per `#`. |
| `Scrapper.YouTubeSearchUrlSnoc` | manager/tools/hashtag_analyzer/scrapper.py:378-379 | Read character by character, a `#` appends `%23` and every other character is appended as it is, so the other characters stay in order. |
| `Scrapper.YouTubeSearchUrlOfHashtag` | manager/tools/hashtag_analyzer/scrapper.py:378-379 | A `#name` query becomes `%23` followed by the encoded name. |
| `Scrapper.YouTubeSearchUrlOfPlainName` | manager/tools/hashtag_analyzer/scrapper.py:378-379 | A name without `#` is appended as it is, and `#name` becomes `%23` followed by the name. |
| `Scrapper.YouTubeVideoUrl` | manager/tools/hashtag_analyzer/scrapper.py:429-430 | The URL ends with the href. Any non-empty href gives an `http` URL. |
| `Scrapper.YouTubeVideoUrlIdempotent` | manager/tools/hashtag_analyzer/scrapper.py:429-430 | Prefixing an already absolute URL changes nothing. |
| `Scrapper.TikTokContent` | manager/tools/hashtag_analyzer/scrapper.py:349-356 | The TikTok content entry has the title "TikTok video with " followed by the hashtag, the thumbnail URL or "", the href, and no views, creator or description. The base64 thumbnail is the encoder's answer for a non-empty thumbnail URL, and None otherwise. |
| `Scrapper.TikTokThumbnailOnlyForSrc` | manager/tools/hashtag_analyzer/scrapper.py:347 | Without a non-empty thumbnail URL the image is never downloaded: the entry does not depend on the encoder and has no base64 thumbnail. |
| `Scrapper.YouTubeContent` | manager/tools/hashtag_analyzer/scrapper.py:424-433 | The title is the `title` attribute, else the element text, and is never empty. The video URL is present exactly when the link is. A non-empty link ends the URL, and the URL starts with "http" (a relative link gets the youtube.com prefix). An empty link is kept as it is. The base64 thumbnail is the encoder's answer for a non-empty thumbnail URL, and None otherwise. |
| `Scrapper.YouTubeThumbnailOnlyForSrc` | manager/tools/hashtag_analyzer/scrapper.py:422 | Without a non-empty thumbnail URL the image is never downloaded: the entry does not depend on the encoder and has no base64 thumbnail. |
| `Scrapper.HashtagContentByPlatform` | manager/tools/hashtag_analyzer/scrapper.py:453-459 | "both" gives TikTok then YouTube content, "tiktok" and "youtube" give their own, and anything else gives none. |
| `Scrapper.CollectContent` | manager/tools/hashtag_analyzer/scrapper.py:451-459 | Starting from `[]` and extending per selected platform gives exactly the hashtag's content. |
| `Scrapper.AnalyzedStep` | manager/tools/hashtag_analyzer/scrapper.py:449-451 | Assigning a hashtag keeps the dict's keys in first-assignment order: a new hashtag is placed last, a repeated one keeps its place, and every key holds its content. |
| `Scrapper.AnalyzedNext` | manager/tools/hashtag_analyzer/scrapper.py:449-459 | The same step, for the i-th hashtag of the input. |
| `Scrapper.AnalyzedKeys` | manager/tools/hashtag_analyzer/scrapper.py:449-451 | The dict's keys are exactly the hashtags seen. |
| `Scrapper.AnalyzeHashtagContent` | manager/tools/hashtag_analyzer/scrapper.py:444-463 | One key per hashtag, in the order of first occurrence, each holding that hashtag's content. The platform filter defaults to "both" and the limit to 5. |

## Left out

- `\w`, `\s` and `lower()` are ASCII-only in the model. Python's are Unicode-aware, and
  Dafny has no Unicode tables.
- Json.Json holds numbers as integers only (`JNum(int)`). A float in the parsed model reply
  or in actor data cannot be represented, so the `TypeError` text a float would produce
  (naming type 'float') is not modelled; the model's texts name 'int' only.
- Regular expressions are hand-written predicates for the patterns the code uses. There is
  no general regex engine.
- Every oracle is deterministic per argument. Retried calls with different outcomes in one
  run are not modelled, apart from the explicit poll traces.
- The following are left out: Selenium driver setup, `time.sleep`, wall-clock timing,
  temporary directories and file clean-up, threading timers, the interactive `input()`
  menu, the `__main__` blocks, the module-level call at testing.py:356-359, printing and
  logging, and file-size reporting.
- The download fallbacks (`_tiktok_fallback_download` and similar) of combine.py and
  summ_down.py are left out. Each download is one oracle answer.
- `format_processing_time` is modelled on whole seconds (`nat`). Floating-point input and
  `int()` truncation are not modelled.
- The `run["defaultDatasetId"]` lookup of the Apify scrapers is folded into the actor
  oracle, which yields the dataset items directly.
- `search_tiktok_hashtag` and `search_youtube_hashtag`: element extraction is an oracle, and
  so are their selector loops and result limits. Only the URL building and the shape of
  each content entry are modelled.
- Exceptions raised part-way through a scraper's Selenium loop are not modelled. For
  example, a missing description in `get_youtube_hashtags` is modelled as `None`.
- DownloadToMemory does not model a chunk read that raises part-way through the stream.
- UploadBytesToGemini does not model errors from writing the temporary file.
- IsVideoAShort takes `title`, `description` and `duration` as present-or-absent values.
  A title that is present but `None`, and a float duration, are not modelled.
- IsVideoAShort takes `width` and `height` as integers. A width or height that is present
  but `None` makes `height > width` (combine.py:287-290) raise `TypeError`; that is not
  modelled.
- UrlPatterns.UserThenVideo reads `\d` in the TikTok `/video/\d+` pattern as an ASCII
  digit. Python's `\d` also matches other Unicode decimal digits.
- Testing.DownloadFileName takes the title as present-or-absent. A title that is present
  but `None` gives "None.mp4" in the source (testing.py:220); that is not modelled.
- SummDown.Process starts after the check in `summ_down()` (summ_down.py:614-615, 938)
  that raises `ValueError` when `GEMINI_API_KEY` is missing or still the placeholder. The
  check reads the environment and is not modelled.
- SummDown.AnalysisOf treats `generate_content` and reading `response.text` as one
  response, checked before the uploaded file is deleted. The source deletes the file
  between the two (summ_down.py:836-844). So when both `.text` and the deletion raise, the
  source reports the deletion error and the model reports the text error.
- The outer `except` of `process` (summ_down.py:921-922) cannot be reached in the model.
  Every inner step returns a value instead of raising.
- SummDown.AnalysisOf, SummDown.AnalyzeVideo and SummDown.Process require the Gemini
  session to settle. The source would otherwise poll forever.
- GeminiPolling.AwaitProcessing, CombineVideo.PollJob, VidGeneration.AwaitOperation and
  Testing.SummDown read a finite trace. When the trace runs out they report "still waiting"
  instead of looping forever.

## Findings

| source | as written | input that shows it | evidently intended | confidence | as-written member | corrected member |
|---|---|---|---|---|---|---|
| manager/tools/testing.py:352 | The success count keeps every summary that does not contain "failed" after lowercasing. `generate_summary` reports its own errors as "Error generating summary: ..." (testing.py:297-299), which contains no "failed". | A URL that downloads and uploads, and whose generation raises "quota": its entry reads "Error generating summary: quota" and is counted as 1 successful, 0 failed. | A summary-generation error counts as failed, like download and processing errors. | medium, not executed | `Testing.SummaryErrorCountedAsSuccess` | `Testing.AllFailuresCounted` |
