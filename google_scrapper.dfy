/** `fetch_trending_searches` of manager/tools/google_scrapper.py: run the Google Trends actor
    with a fixed input, then flatten the first five trends of every dataset item that has any.

    The actor run and its dataset are one oracle: given the actor id and the input, it yields the
    dataset items (each a dict) or raises. */
module GoogleScrapper {
  import opened Base
  import opened Seqs
  import opened Json

  const ActorId: string := "nWhM7vTPu16lcwuIg"
  const TrendsKey: string := "trending_searches"

  /** The actor input. The `country` argument goes only under the misspelt key
      "rendingSearchesCountry"; the country the actor reads is always "US". */
  function RunInput(country: string, timeframe: string): (input: map<string, Json>)
    ensures "trendingSearchesCountry" in input && "trendingSearchesTimeframe" in input
    ensures "rendingSearchesCountry" in input
    ensures input["trendingSearchesCountry"] == JStr("US")
    ensures input["trendingSearchesTimeframe"] == JStr(timeframe)
    ensures input["rendingSearchesCountry"] == JStr(country)
    ensures forall k :: k in input && input[k] == JStr(country) && country != "US" && country != timeframe ==>
      k == "rendingSearchesCountry"
  {
    map[
      "enableTrendingSearches" := JBool(true),
      "fetchRegionalData" := JBool(false),
      "proxyConfiguration" := JObj(map["useApifyProxy" := JBool(true), "apifyProxyGroups" := JArr([])]),
      "trendingSearchesCountry" := JStr("US"),
      "trendingSearchesTimeframe" := JStr(timeframe),
      "rendingSearchesCountry" := JStr(country)]
  }

  /** The country argument does not change what the actor is asked for under the key it reads. */
  lemma CountryIgnored(c1: string, c2: string, timeframe: string)
    ensures RunInput(c1, timeframe)["trendingSearchesCountry"] == RunInput(c2, timeframe)["trendingSearchesCountry"]
    ensures RunInput(c1, timeframe) == RunInput(c2, timeframe)["rendingSearchesCountry" := JStr(c1)]
  {
  }

  /** One element of `results`. */
  datatype TrendEntry = TrendEntry(term: Json, volume: Json)

  /** `item["trending_searches"][:5]` as a list of values: the first five elements of a list,
      the first five characters of a string, and the error Python raises on anything else. */
  function TopFive(v: Json): (r: Result<seq<Json>>)
    ensures v.JArr? ==> r == Ok(Take(v.items, 5))
    ensures r.Ok? ==> |r.value| <= 5
  {
    match v
    case JArr(xs) => Ok(Take(xs, 5))
    case JStr(s) => Ok(seq(|Take(s, 5)|, i requires 0 <= i < |Take(s, 5)| => JStr([Take(s, 5)[i]])))
    case JObj(_) => Raised("unhashable type: 'slice'")
    case _ => Raised("'" + TypeName(v) + "' object is not subscriptable")
  }

  /** `{"term": trend["term"], "volume": trend["trend_volume"]}`, keys read in that order. */
  function EntryOf(trend: Json): (r: Result<TrendEntry>)
    ensures r.Ok? <==> trend.JObj? && "term" in trend.fields && "trend_volume" in trend.fields
    ensures r.Ok? ==> r.value == TrendEntry(trend.fields["term"], trend.fields["trend_volume"])
  {
    match PySubscript(trend, "term")
    case Raised(e) => Raised(e)
    case Ok(term) =>
      match PySubscript(trend, "trend_volume")
      case Raised(e) => Raised(e)
      case Ok(volume) => Ok(TrendEntry(term, volume))
  }

  /** The entries of a list of trends, in order, or the first error. */
  function Entries(trends: seq<Json>): (r: Result<seq<TrendEntry>>)
    ensures r.Ok? ==> |r.value| == |trends|
  {
    if trends == [] then Ok([])
    else match Entries(trends[..|trends| - 1])
      case Raised(e) => Raised(e)
      case Ok(init) =>
        match EntryOf(trends[|trends| - 1])
        case Raised(e) => Raised(e)
        case Ok(entry) => Ok(init + [entry])
  }

  /** When every trend converts, entry i is trend i's term and volume. */
  lemma {:induction false} EntriesInOrder(trends: seq<Json>)
    requires Entries(trends).Ok?
    ensures forall i :: 0 <= i < |trends| ==> Ok(Entries(trends).value[i]) == EntryOf(trends[i])
  {
    if trends != [] {
      var init := trends[..|trends| - 1];
      EntriesInOrder(init);
      assert forall i :: 0 <= i < |init| ==> trends[i] == init[i];
    }
  }

  /** What one dataset item adds: nothing without the key, else the entries of its first five
      trends. */
  function Contribution(item: map<string, Json>): (r: Result<seq<TrendEntry>>)
    ensures TrendsKey !in item ==> r == Ok([])
    ensures r.Ok? ==> |r.value| <= 5
  {
    if TrendsKey !in item then Ok([])
    else match TopFive(item[TrendsKey])
      case Raised(e) => Raised(e)
      case Ok(top) => Entries(top)
  }

  /** `results` after reading `items`, or the first error raised while reading them. */
  function Flatten(items: seq<map<string, Json>>): (r: Result<seq<TrendEntry>>)
  {
    if items == [] then Ok([])
    else match Flatten(items[..|items| - 1])
      case Raised(e) => Raised(e)
      case Ok(init) =>
        match Contribution(items[|items| - 1])
        case Raised(e) => Raised(e)
        case Ok(c) => Ok(init + c)
  }

  /** The items that carry trends. */
  predicate HasTrends(item: map<string, Json>)
  {
    TrendsKey in item
  }

  /** At most five entries per item that carries trends; items without trends add nothing. */
  lemma {:induction false} FlattenBound(items: seq<map<string, Json>>)
    requires Flatten(items).Ok?
    ensures |Flatten(items).value| <= 5 * |Keep(items, HasTrends)|
  {
    if items != [] {
      var init := items[..|items| - 1];
      FlattenBound(init);
    }
  }

  /** Reading more items keeps what was already flattened, in front, and adds the new items'
      entries after it. */
  lemma {:induction false} FlattenAppend(a: seq<map<string, Json>>, b: seq<map<string, Json>>)
    requires Flatten(a + b).Ok?
    ensures Flatten(a).Ok? && Flatten(b).Ok?
    ensures Flatten(a + b).value == Flatten(a).value + Flatten(b).value
    decreases |b|
  {
    if b == [] {
      assert a + b == a;
    } else {
      var b', last := b[..|b| - 1], b[|b| - 1];
      FlattenUnfold(a + b);
      AppendSnoc(a, b);
      FlattenAppend(a, b');
      FlattenUnfold(b);
      var fa, fb', c := Flatten(a).value, Flatten(b').value, Contribution(last).value;
      assert Flatten(a + b).value == (fa + fb') + c;
      assert (fa + fb') + c == fa + (fb' + c);
    }
  }

  /** One step of the definition: the items before the last one, then the last one. */
  lemma FlattenUnfold(items: seq<map<string, Json>>)
    requires items != []
    ensures Flatten(items).Ok? <==>
      Flatten(items[..|items| - 1]).Ok? && Contribution(items[|items| - 1]).Ok?
    ensures Flatten(items).Ok? ==>
      Flatten(items).value == Flatten(items[..|items| - 1]).value + Contribution(items[|items| - 1]).value
  {
  }

  /** The first error of an item ends the whole flattening with that error. */
  lemma {:induction false} FlattenStopsAtError(items: seq<map<string, Json>>, i: nat)
    requires i < |items| && Flatten(items[..i]).Ok? && Contribution(items[i]).Raised?
    ensures Flatten(items) == Raised(Contribution(items[i]).error)
    decreases |items|
  {
    if i < |items| - 1 {
      var init := items[..|items| - 1];
      assert init[..i] == items[..i];
      FlattenStopsAtError(init, i);
    } else {
      assert items[..|items| - 1] == items[..i];
    }
  }

  /** The nested loops of `fetch_trending_searches` over the dataset. */
  method FlattenItems(items: seq<map<string, Json>>) returns (r: Result<seq<TrendEntry>>)
    ensures r == Flatten(items)
  {
    var results: seq<TrendEntry> := [];
    for i := 0 to |items|
      invariant Flatten(items[..i]) == Ok(results)
    {
      var item := items[i];
      assert items[..i + 1][..i] == items[..i];
      assert items[..i + 1][i] == item;
      if TrendsKey in item {
        var top := TopFive(item[TrendsKey]);
        if top.Raised? {
          FlattenStopsAtError(items, i);
          return Raised(top.error);
        }
        var base := results;
        for j := 0 to |top.value|
          invariant Entries(top.value[..j]).Ok?
          invariant results == base + Entries(top.value[..j]).value
        {
          assert top.value[..j + 1][..j] == top.value[..j];
          var entry := EntryOf(top.value[j]);
          if entry.Raised? {
            assert Entries(top.value[..j + 1]) == Raised(entry.error);
            EntriesStopAtError(top.value, j + 1);
            FlattenStopsAtError(items, i);
            return Raised(entry.error);
          }
          results := results + [entry.value];
        }
        assert top.value[..|top.value|] == top.value;
        assert Contribution(item) == Entries(top.value);
      } else {
        assert results + [] == results;
      }
    }
    assert items[..|items|] == items;
    r := Ok(results);
  }

  /** An error among the first `j` trends is the error of all of them. */
  lemma {:induction false} EntriesStopAtError(trends: seq<Json>, j: nat)
    requires j <= |trends| && Entries(trends[..j]).Raised?
    ensures Entries(trends) == Entries(trends[..j])
    decreases |trends|
  {
    if j < |trends| {
      var init := trends[..|trends| - 1];
      assert init[..j] == trends[..j];
      EntriesStopAtError(init, j);
    } else {
      assert trends[..j] == trends;
    }
  }

  /** `fetch_trending_searches(country, timeframe)` */
  method FetchTrendingSearches(country: string, timeframe: string,
                               actor: (string, map<string, Json>) -> Result<seq<map<string, Json>>>)
    returns (r: Result<seq<TrendEntry>>)
    ensures actor(ActorId, RunInput(country, timeframe)).Raised? ==>
      r == Raised(actor(ActorId, RunInput(country, timeframe)).error)
    ensures actor(ActorId, RunInput(country, timeframe)).Ok? ==>
      r == Flatten(actor(ActorId, RunInput(country, timeframe)).value)
  {
    var run := actor(ActorId, RunInput(country, timeframe));
    if run.Raised? {
      return Raised(run.error);
    }
    r := FlattenItems(run.value);
  }
}
