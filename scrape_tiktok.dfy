/** `scrape_tiktok` of manager/tools/scrape_tiktok.py: run the TikTok search actor for one
    category, then map every dataset item to a title, a URL and a view count.

    The actor run and its dataset are one oracle: given the actor id and the input, it yields the
    dataset items (each a dict) or raises. */
module ScrapeTikTok {
  import opened Base
  import opened Json

  const ActorId: string := "GdWCkxBtKWOsKjdch"

  /** The actor input. `region` is accepted but not used: the proxy country is always "US". */
  function RunInput(category: string, region: string, resultsPerPage: int := 3): (input: map<string, Json>)
    ensures "resultsPerPage" in input && input["resultsPerPage"] == JNum(resultsPerPage)
    ensures "searchQueries" in input && input["searchQueries"] == JArr([JStr(category)])
    ensures "proxyCountryCode" in input && input["proxyCountryCode"] == JStr("US")
  {
    map[
      "excludePinnedPosts" := JBool(false),
      "proxyCountryCode" := JStr("US"),
      "resultsPerPage" := JNum(resultsPerPage),
      "scrapeRelatedVideos" := JBool(false),
      "searchQueries" := JArr([JStr(category)]),
      "searchSection" := JStr("/video"),
      "shouldDownloadAvatars" := JBool(false),
      "shouldDownloadCovers" := JBool(false),
      "shouldDownloadMusicCovers" := JBool(false),
      "shouldDownloadSlideshowImages" := JBool(false),
      "shouldDownloadSubtitles" := JBool(false),
      "shouldDownloadVideos" := JBool(true),
      "profileScrapeSections" := JArr([JStr("videos")]),
      "profileSorting" := JStr("latest"),
      "maxProfilesPerQuery" := JNum(10)]
  }

  /** The region has no effect on the input, and without a page size three results are asked
      for. */
  lemma RunInputIgnoresRegion(category: string, r1: string, r2: string, resultsPerPage: int)
    ensures RunInput(category, r1, resultsPerPage) == RunInput(category, r2, resultsPerPage)
    ensures RunInput(category, r1) == RunInput(category, r1, 3)
  {
  }

  /** One element of `results`. */
  datatype Video = Video(title: Json, url: Json, viewCount: Json)

  /** The mapping of one item: `text`, `webVideoUrl` and `playCount`, each with its default ("",
      "" and 0) when the key is missing. */
  function VideoOf(item: map<string, Json>): (v: Video)
    ensures "text" in item ==> v.title == item["text"]
    ensures "text" !in item ==> v.title == JStr("")
    ensures "webVideoUrl" in item ==> v.url == item["webVideoUrl"]
    ensures "webVideoUrl" !in item ==> v.url == JStr("")
    ensures "playCount" in item ==> v.viewCount == item["playCount"]
    ensures "playCount" !in item ==> v.viewCount == JNum(0)
  {
    Video(Get(item, "text", JStr("")), Get(item, "webVideoUrl", JStr("")), Get(item, "playCount", JNum(0)))
  }

  /** The loop over the dataset: one result per item, in order. */
  method MapItems(items: seq<map<string, Json>>) returns (results: seq<Video>)
    ensures |results| == |items|
    ensures forall i :: 0 <= i < |items| ==> results[i] == VideoOf(items[i])
  {
    results := [];
    for i := 0 to |items|
      invariant |results| == i
      invariant forall j :: 0 <= j < i ==> results[j] == VideoOf(items[j])
    {
      results := results + [VideoOf(items[i])];
    }
  }

  /** `scrape_tiktok(category, region, results_per_page)` */
  method ScrapeTikTok(category: string, region: string,
                      actor: (string, map<string, Json>) -> Result<seq<map<string, Json>>>,
                      resultsPerPage: int := 3)
    returns (r: Result<seq<Video>>)
    ensures actor(ActorId, RunInput(category, region, resultsPerPage)).Raised? ==>
      r == Raised(actor(ActorId, RunInput(category, region, resultsPerPage)).error)
    ensures actor(ActorId, RunInput(category, region, resultsPerPage)).Ok? ==>
      var items := actor(ActorId, RunInput(category, region, resultsPerPage)).value;
      r.Ok? && |r.value| == |items| && forall i :: 0 <= i < |items| ==> r.value[i] == VideoOf(items[i])
  {
    var run := actor(ActorId, RunInput(category, region, resultsPerPage));
    if run.Raised? {
      return Raised(run.error);
    }
    var results := MapItems(run.value);
    r := Ok(results);
  }
}
