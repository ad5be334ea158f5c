/** The machine-readable strategy document served at `/ai/<slug>.json`: the
    strategy whose id is the route slug, projected into a fixed-shape JSON
    object, and the choice between that document, an error document and a
    not-found document. "Today" is a parameter. */
module StrategyJsonPage {
  import opened Wrappers
  import opened Stamps
  import opened JsonValues
  import opened Records
  import opened Seqs
  import opened Text

  const SourceBase := "https://forge.finance/strategies/"
  const DefaultFee := "0.25%"
  const FeePrefix := "Forge fee = "
  const DefaultFeeFraction: real := 0.0025
  const NotFoundMessage := "Strategy not found"

  /** `lastUpdated || updatedAt?.toDate?.()?.toISOString().split('T')[0] || today`:
      the strategy's own text, else the day of a store timestamp, else today.
      The AI sitemap dates its entries the same way. */
  function Updated(s: Strategy, today: Day): (r: string)
    ensures s.lastUpdated != "" ==> r == s.lastUpdated
    ensures s.lastUpdated == "" && s.updatedAt.Timestamp? ==> r == s.updatedAt.at.day
    ensures s.lastUpdated == "" && !s.updatedAt.Timestamp? ==> r == today
    ensures r != ""
  {
    if s.lastUpdated != "" then s.lastUpdated
    else TimestampDay(s.updatedAt).GetOr(today)
  }

  /** One entry of `how_it_works`: a text step as is, an object step's
      `description` when truthy, else the object itself. */
  function HowItWorks(step: Step): (r: Json)
    ensures step.StepText? ==> r == JStr(step.text)
    ensures step.StepObject? ==> r == OrElse(Get(step.fields, "description"), JObj(step.fields))
  {
    match step
    case StepText(t) => JStr(t)
    case StepObject(f) => OrElse(Get(f, "description"), JObj(f))
  }

  /** One entry of `risks`: a text risk as is, else the object's `type`, else
      its `description`, else the word "Risk". */
  function RiskLabel(risk: RiskItem): (r: Json)
    ensures risk.RiskText? ==> r == JStr(risk.text)
    ensures risk.RiskObject? ==> r == OrElse(Get(risk.fields, "type"),
                                        OrElse(Get(risk.fields, "description"), JStr("Risk")))
  {
    match risk
    case RiskText(t) => JStr(t)
    case RiskObject(f) => OrElse(Get(f, "type"), OrElse(Get(f, "description"), JStr("Risk")))
  }

  function MapSteps(steps: seq<Step>): (r: seq<Json>)
    ensures |r| == |steps| && forall i :: 0 <= i < |steps| ==> r[i] == HowItWorks(steps[i])
  {
    seq(|steps|, i requires 0 <= i < |steps| => HowItWorks(steps[i]))
  }

  function MapRisks(risks: seq<RiskItem>): (r: seq<Json>)
    ensures |r| == |risks| && forall i :: 0 <= i < |risks| ==> r[i] == RiskLabel(risks[i])
  {
    seq(|risks|, i requires 0 <= i < |risks| => RiskLabel(risks[i]))
  }

  /** `fee_gross_yield_pct`: the default fraction when `fee` is empty, else
      the parsed percentage over 100 (`NaN` is written as `null`). */
  function FeeFraction(s: Strategy): (r: Json)
    ensures s.fee == "" ==> r == JNum(DefaultFeeFraction)
    ensures s.fee != "" && s.feePercent.Some? ==> r == JNum(s.feePercent.value / 100.0)
    ensures s.fee != "" && s.feePercent.None? ==> r == JNull
  {
    if s.fee == "" then JNum(DefaultFeeFraction)
    else match s.feePercent
      case Some(p) => JNum(p / 100.0)
      case None => JNull
  }

  /** The fee sentence, with the default fee when `fee` is empty. */
  function FeesText(s: Strategy): (r: string)
    ensures |FeePrefix| <= |r| && r[..|FeePrefix|] == FeePrefix
    ensures OccursAt(r, if s.fee != "" then s.fee else DefaultFee, |FeePrefix|)
  {
    var fee := if s.fee != "" then s.fee else DefaultFee;
    assert (FeePrefix + fee + " of gross yield, net daily.")[..|FeePrefix| + |fee|] == FeePrefix + fee;
    FeePrefix + fee + " of gross yield, net daily."
  }

  /** The members that are always written. */
  const FixedKeys: set<string> := {"slug", "updated", "numbers", "chains", "protocols", "how_it_works",
                                   "risks", "fees", "faq", "changelog", "source"}

  /** The members of `transformedData` that do not depend on an optional
      name or description. */
  function Fixed(s: Strategy, today: Day): (r: map<string, Json>)
    ensures r.Keys == FixedKeys
  {
    map[
      "slug" := JStr(s.id),
      "updated" := JStr(Updated(s, today)),
      "numbers" := JObj(map["apy_typical" := JStr(IntText(s.apy) + "%"),
                            "fee_gross_yield_pct" := FeeFraction(s)]),
      "chains" := OrElse(s.chains, JArr([])),
      "protocols" := OrElse(s.protocols, JArr([])),
      "how_it_works" := JArr(if s.steps.Some? then MapSteps(s.steps.value) else []),
      "risks" := JArr(if s.risks.Some? then MapRisks(s.risks.value) else []),
      "fees" := JStr(FeesText(s)),
      "faq" := OrElse(s.faq, JArr([])),
      "changelog" := OrElse(s.changelog, JArr([])),
      "source" := JStr(SourceBase + s.id)]
  }

  /** `transformedData`: the strategy as the fixed-shape JSON object. `title`
      and `summary` are left out by `JSON.stringify` when the strategy has no
      name or description. */
  function Transform(s: Strategy, today: Day): (r: map<string, Json>)
    ensures r.Keys == FixedKeys + (if s.name.Some? then {"title"} else {})
                                + (if s.description.Some? then {"summary"} else {})
  {
    var fixed := Fixed(s, today);
    var titled := Optional(fixed, "title", if s.name.Some? then Some(JStr(s.name.value)) else None);
    Optional(titled, "summary", if s.description.Some? then Some(JStr(s.description.value)) else None)
  }

  /** `strategies.find(s => s.id === slug)`. */
  function FindStrategy(strategies: seq<Strategy>, slug: string): (r: Option<Strategy>)
    ensures r.Some? ==> r.value.id == slug && r.value in strategies
    ensures r.None? <==> forall i :: 0 <= i < |strategies| ==> strategies[i].id != slug
  {
    Find(strategies, (s: Strategy) => s.id == slug)
  }

  /** What the page renders: nothing while loading (`None`), then the error
      document, then the not-found document when no strategy has the slug,
      else the strategy's document. `error` is the hook's message, "" for
      none. */
  function Page(loading: bool, error: string, strategies: seq<Strategy>, slug: string, today: Day): (r: Option<Json>)
    ensures loading <==> r.None?
    ensures !loading && error != "" ==>
      r == Some(JObj(map["error" := JStr(NotFoundMessage), "message" := JStr(error)]))
    ensures !loading && error == "" && FindStrategy(strategies, slug).None? ==>
      r == Some(JObj(map["error" := JStr(NotFoundMessage), "slug" := JStr(slug)]))
    ensures !loading && error == "" && FindStrategy(strategies, slug).Some? ==>
      r == Some(JObj(Transform(FindStrategy(strategies, slug).value, today)))
  {
    if loading then None
    else if error != "" then Some(JObj(map["error" := JStr(NotFoundMessage), "message" := JStr(error)]))
    else match FindStrategy(strategies, slug)
      case None => Some(JObj(map["error" := JStr(NotFoundMessage), "slug" := JStr(slug)]))
      case Some(s) => Some(JObj(Transform(s, today)))
  }

  /** The document describes the first strategy in list order whose id is
      the slug. */
  lemma FindsFirstMatch(strategies: seq<Strategy>, slug: string, i: nat)
    requires i < |strategies| && strategies[i].id == slug
    requires forall j :: 0 <= j < i ==> strategies[j].id != slug
    ensures FindStrategy(strategies, slug) == Some(strategies[i])
  {
    var p := (s: Strategy) => s.id == slug;
    var k := FindIndex(strategies, p);
    assert p(strategies[i]);
    assert k.Some? && p(strategies[k.value]);
  }

  /** The members of a strategy document, as the projection defines them. */
  lemma TransformMembers(s: Strategy, today: Day)
    ensures var d := Transform(s, today);
      d["slug"] == JStr(s.id) && d["source"] == JStr(SourceBase + s.id)
      && (s.name.Some? ==> d["title"] == JStr(s.name.value))
      && (s.description.Some? ==> d["summary"] == JStr(s.description.value))
      && d["updated"] == JStr(Updated(s, today))
      && d["numbers"] == JObj(map["apy_typical" := JStr(IntText(s.apy) + "%"),
                                  "fee_gross_yield_pct" := FeeFraction(s)])
      && d["fees"] == JStr(FeesText(s))
      && d["how_it_works"] == JArr(if s.steps.Some? then MapSteps(s.steps.value) else [])
      && d["risks"] == JArr(if s.risks.Some? then MapRisks(s.risks.value) else [])
      && d["chains"] == OrElse(s.chains, JArr([])) && d["protocols"] == OrElse(s.protocols, JArr([]))
      && d["faq"] == OrElse(s.faq, JArr([])) && d["changelog"] == OrElse(s.changelog, JArr([]))
  {
    FixedScalars(s, today);
    FixedLists(s, today);
  }

  lemma FixedScalars(s: Strategy, today: Day)
    ensures var d := Fixed(s, today);
      d["slug"] == JStr(s.id) && d["source"] == JStr(SourceBase + s.id)
      && d["updated"] == JStr(Updated(s, today)) && d["fees"] == JStr(FeesText(s))
      && d["numbers"] == JObj(map["apy_typical" := JStr(IntText(s.apy) + "%"),
                                  "fee_gross_yield_pct" := FeeFraction(s)])
  {
  }

  lemma FixedLists(s: Strategy, today: Day)
    ensures var d := Fixed(s, today);
      d["how_it_works"] == JArr(if s.steps.Some? then MapSteps(s.steps.value) else [])
      && d["risks"] == JArr(if s.risks.Some? then MapRisks(s.risks.value) else [])
      && d["chains"] == OrElse(s.chains, JArr([])) && d["protocols"] == OrElse(s.protocols, JArr([]))
      && d["faq"] == OrElse(s.faq, JArr([])) && d["changelog"] == OrElse(s.changelog, JArr([]))
  {
  }

  /** `how_it_works` and `risks` have one entry per input step and risk, and
      the four pass-through lists are the input lists when those are set. */
  lemma ListsPreserved(s: Strategy, today: Day)
    ensures var d := Transform(s, today);
      |d["how_it_works"].items| == (if s.steps.Some? then |s.steps.value| else 0)
      && |d["risks"].items| == (if s.risks.Some? then |s.risks.value| else 0)
      && (s.chains.Some? && s.chains.value.JArr? ==> d["chains"] == s.chains.value)
      && (s.protocols.Some? && s.protocols.value.JArr? ==> d["protocols"] == s.protocols.value)
      && (s.faq.Some? && s.faq.value.JArr? ==> d["faq"] == s.faq.value)
      && (s.changelog.Some? && s.changelog.value.JArr? ==> d["changelog"] == s.changelog.value)
      && (s.chains.None? ==> d["chains"] == JArr([]))
  {
    TransformMembers(s, today);
  }
}
