/** The AI catalog served at `/ai/sitemap.json`: one `{title, url, updated}`
    entry per strategy, in list order, pointing at the strategy's JSON
    document; and the choice of what the page renders. */
module AiSitemapPage {
  import opened Wrappers
  import opened Stamps
  import opened JsonValues
  import opened Records
  import StrategyJsonPage
  import Text

  const AiBase := "https://forge.finance/ai/"
  const FailureText := "Failed to load sitemap"

  /** The URL of a strategy's JSON document. */
  function DocumentUrl(id: string): (r: string)
    ensures '/' !in id ==> Text.LastSegment(r) == id + ".json"
  {
    if '/' in id then AiBase + id + ".json"
    else
      assert forall k :: 0 <= k < |id + ".json"| ==> (id + ".json")[k] == (if k < |id| then id[k] else ".json"[k - |id|]);
      assert AiBase + id + ".json" == AiBase + (id + ".json");
      Text.LastSegmentAfterSlash(AiBase, id + ".json");
      AiBase + id + ".json"
  }

  /** One catalog entry; `title` is left out when the strategy has no name. */
  function Entry(s: Strategy, today: Day): (r: map<string, Json>)
    ensures r.Keys == {"url", "updated"} + (if s.name.Some? then {"title"} else {})
    ensures r["url"] == JStr(DocumentUrl(s.id))
    ensures r["updated"] == JStr(StrategyJsonPage.Updated(s, today))
    ensures s.name.Some? ==> r["title"] == JStr(s.name.value)
  {
    Optional(map["url" := JStr(DocumentUrl(s.id)), "updated" := JStr(StrategyJsonPage.Updated(s, today))],
             "title", if s.name.Some? then Some(JStr(s.name.value)) else None)
  }

  /** `strategies.map(...)`: exactly one entry per strategy, in order. */
  function Catalog(strategies: seq<Strategy>, today: Day): (r: seq<Json>)
    ensures |r| == |strategies|
    ensures forall i :: 0 <= i < |strategies| ==> r[i] == JObj(Entry(strategies[i], today))
  {
    seq(|strategies|, i requires 0 <= i < |strategies| => JObj(Entry(strategies[i], today)))
  }

  /** What the page renders: nothing while loading (`None`), then the failure
      document, then the catalog, which is the empty array for no
      strategies. */
  function Page(loading: bool, error: string, strategies: seq<Strategy>, today: Day): (r: Option<Json>)
    ensures loading <==> r.None?
    ensures !loading && error != "" ==>
      r == Some(JObj(map["error" := JStr(FailureText), "message" := JStr(error)]))
    ensures !loading && error == "" ==> r == Some(JArr(Catalog(strategies, today)))
  {
    if loading then None
    else if error != "" then Some(JObj(map["error" := JStr(FailureText), "message" := JStr(error)]))
    else if |strategies| == 0 then Some(JArr([]))
    else Some(JArr(Catalog(strategies, today)))
  }

  /** With no strategies the page writes the empty JSON array. */
  lemma EmptyCatalog(today: Day)
    ensures Page(false, "", [], today) == Some(JArr([]))
  {
  }
}
