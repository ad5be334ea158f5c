/** The structural checks run against the JSON endpoints: recovering a
    strategy slug from a catalog URL, the required-member, APY-format and
    array-member checks on a strategy document, and the Product schema check.
    Fetching, the DOM and logging are not modelled; each check returns what
    it would report. */
module JsonEndpointChecks {
  import opened Wrappers
  import opened Stamps
  import opened JsonValues
  import opened Records
  import opened Seqs
  import opened Text
  import StrategyJsonPage
  import AiSitemapPage

  /** `url.split('/').pop().replace('.json', '')`. */
  function SlugFromUrl(url: string): (r: string)
    ensures !Contains(LastSegment(url), ".json") ==> r == LastSegment(url)
    ensures |r| <= |LastSegment(url)|
  {
    ReplaceFirst(LastSegment(url), ".json", "")
  }

  /** The members every strategy document must carry, in the order the
      check lists them: the four identifying ones, then the content ones. */
  const RequiredFields: seq<string> := LeadingFields + ContentFields
  const LeadingFields: seq<string> := ["slug", "title", "updated", "summary"]
  const ContentFields: seq<string> := ["numbers", "chains", "protocols", "how_it_works", "risks", "fees", "faq",
                                       "changelog", "source"]

  const ArrayFields: seq<string> := ["chains", "protocols", "how_it_works", "risks", "faq", "changelog"]

  /** `field => !(field in doc)`. */
  function AbsentFrom(doc: map<string, Json>): string -> bool {
    f => f !in doc
  }

  /** The required members absent from the document, in declared order. */
  function MissingFields(doc: map<string, Json>): (r: seq<string>)
    ensures |r| <= |RequiredFields|
    ensures forall i :: 0 <= i < |r| ==> r[i] in RequiredFields && r[i] !in doc
  {
    var r := Filter(RequiredFields, AbsentFrom(doc));
    assert forall f :: f in r ==> f in RequiredFields && AbsentFrom(doc)(f);
    assert forall i :: 0 <= i < |r| ==> r[i] in r && AbsentFrom(doc)(r[i]) == (r[i] !in doc);
    r
  }

  /** `numbers` is set and truthy and its `apy_typical` is a string. */
  predicate ApyFormatOk(doc: map<string, Json>): (r: bool)
    ensures r ==> "numbers" in doc && doc["numbers"].JObj? && "apy_typical" in doc["numbers"].fields
    ensures "numbers" in doc && !doc["numbers"].JObj? ==> !r
  {
    "numbers" in doc && IsTruthy(doc["numbers"]) && doc["numbers"].JObj?
    && "apy_typical" in doc["numbers"].fields && doc["numbers"].fields["apy_typical"].JStr?
  }

  predicate IsArray(v: Option<Json>) {
    v.Some? && v.value.JArr?
  }

  /** `field => !Array.isArray(doc[field])`. */
  function NotArrayIn(doc: map<string, Json>): string -> bool {
    f => !IsArray(Get(doc, f))
  }

  /** The array members the check warns about, in declared order. */
  function NonArrayFields(doc: map<string, Json>): (r: seq<string>)
    ensures forall f :: f in r <==> f in ArrayFields && !IsArray(Get(doc, f))
  {
    Filter(ArrayFields, NotArrayIn(doc))
  }

  /** For a schema whose `@type` is "Product", those of `name` and
      `description` that are falsy; `None` for any other schema. */
  function ProductMissing(schema: map<string, Json>): (r: Option<seq<string>>)
    ensures r.Some? <==> Get(schema, "@type") == Some(JStr("Product"))
    ensures r.Some? ==> forall f :: f in r.value <==>
      f in ["name", "description"] && !(f in schema && IsTruthy(schema[f]))
  {
    if Get(schema, "@type") == Some(JStr("Product"))
    then Some(Filter(["name", "description"], f => !(f in schema && IsTruthy(schema[f]))))
    else None
  }

  // ------------------------------------------------------------- properties

  /** Nothing is reported missing exactly when all thirteen members are there. */
  lemma MissingFieldsEmptyIff(doc: map<string, Json>)
    ensures MissingFields(doc) == [] <==> forall i :: 0 <= i < |RequiredFields| ==> RequiredFields[i] in doc
  {
    if MissingFields(doc) == [] {
      forall i | 0 <= i < |RequiredFields| ensures RequiredFields[i] in doc {
        assert RequiredFields[i] in RequiredFields;
      }
    } else {
      var f := MissingFields(doc)[0];
      assert f in MissingFields(doc);
      assert f in RequiredFields;
    }
  }

  /** ".json" does not occur in `id + ".json"` before its end: the only
      candidate positions overlap the suffix, whose only '.' is its first
      character. */
  lemma FirstJsonSuffix(id: string)
    requires !Contains(id, ".json")
    ensures IndexOf(id + ".json", ".json") == Some(|id|)
  {
    var s := id + ".json";
    assert OccursAt(s, ".json", |id|) by {
      assert s[|id|..|id| + 5] == ".json";
    }
    ContainsIff(id, ".json");
    forall k | 0 <= k < |id| ensures !OccursAt(s, ".json", k) {
      if k + 5 <= |id| {
        assert !OccursAt(id, ".json", k);
        assert s[k..k + 5] == id[k..k + 5];
      } else {
        assert s[|id|] == '.';
        assert ".json"[|id| - k] != '.';
      }
    }
  }

  /** Removing the first ".json" from `id + ".json"` gives `id` back. */
  lemma StripJsonSuffix(id: string)
    requires !Contains(id, ".json")
    ensures ReplaceFirst(id + ".json", ".json", "") == id
  {
    var tail := id + ".json";
    FirstJsonSuffix(id);
    assert tail[..|id|] == id;
    assert tail[|id| + 5..] == [];
  }

  /** The slug recovered from a catalog entry's URL is the strategy's id,
      for an id with no slash and no ".json" in it. */
  lemma SlugRoundTrip(id: string)
    requires '/' !in id && !Contains(id, ".json")
    ensures SlugFromUrl(AiSitemapPage.DocumentUrl(id)) == id
  {
    var tail := id + ".json";
    var base := AiSitemapPage.AiBase;
    assert AiSitemapPage.DocumentUrl(id) == base + tail;
    assert '/' !in tail by {
      assert forall k :: 0 <= k < |tail| ==> tail[k] == (if k < |id| then id[k] else ".json"[k - |id|]);
    }
    assert |base| > 0 && base[|base| - 1] == '/';
    LastSegmentAfterSlash(base, tail);
    StripJsonSuffix(id);
  }

  /** Filtering four elements whose first and third fail keeps at most the
      second and the fourth. */
  lemma FilterFour<T(!new)>(a: T, b: T, c: T, e: T, p: T -> bool)
    requires !p(a) && !p(c)
    ensures Filter([a, b, c, e], p) == (if p(b) then [b] else []) + (if p(e) then [e] else [])
  {
    assert [a, b, c, e] == [a] + [b, c, e] && [b, c, e] == [b] + [c, e] && [c, e] == [c] + [e];
    FilterCons(a, [b, c, e], p);
    FilterCons(b, [c, e], p);
    FilterCons(c, [e], p);
    FilterCons(e, [], p);
  }

  /** The array check passes on a document whose six list members are all
      arrays. */
  lemma ArraysOkWhen(d: map<string, Json>)
    requires IsArray(Get(d, "chains")) && IsArray(Get(d, "protocols")) && IsArray(Get(d, "how_it_works"))
    requires IsArray(Get(d, "risks")) && IsArray(Get(d, "faq")) && IsArray(Get(d, "changelog"))
    ensures NonArrayFields(d) == []
  {
    forall i | 0 <= i < |ArrayFields| ensures IsArray(Get(d, ArrayFields[i])) {
      assert ArrayFields[i] in {"chains", "protocols", "how_it_works", "risks", "faq", "changelog"};
    }
    FilterNone(ArrayFields, NotArrayIn(d));
  }

  /** A document holding every required member but possibly `title` and
      `summary` misses exactly those of the two it lacks, in that order. */
  lemma MissingOfMembers(d: map<string, Json>, hasTitle: bool, hasSummary: bool)
    requires ("title" in d) == hasTitle && ("summary" in d) == hasSummary
    requires "slug" in d && "updated" in d
    requires forall i :: 0 <= i < |ContentFields| ==> ContentFields[i] in d
    ensures MissingFields(d) == (if hasTitle then [] else ["title"]) + (if hasSummary then [] else ["summary"])
  {
    FilterAppend(LeadingFields, ContentFields, AbsentFrom(d));
    FilterNone(ContentFields, AbsentFrom(d));
    FilterFour("slug", "title", "updated", "summary", AbsentFrom(d));
  }

  /** A strategy document misses only `title` and `summary`, and each exactly
      when the strategy has no name or no description. */
  lemma DocumentMissing(s: Strategy, today: Day)
    ensures MissingFields(StrategyJsonPage.Transform(s, today))
         == (if s.name.Some? then [] else ["title"]) + (if s.description.Some? then [] else ["summary"])
  {
    var d := StrategyJsonPage.Transform(s, today);
    assert forall i :: 0 <= i < |ContentFields| ==> ContentFields[i] in d;
    MissingOfMembers(d, s.name.Some?, s.description.Some?);
  }

  /** The APY check always passes on a strategy document. */
  lemma DocumentApyOk(s: Strategy, today: Day)
    ensures ApyFormatOk(StrategyJsonPage.Transform(s, today))
  {
    StrategyJsonPage.TransformMembers(s, today);
  }

  /** The array check passes on a strategy document whose pass-through lists
      are arrays or unset. */
  lemma DocumentArraysOk(s: Strategy, today: Day)
    requires s.chains.None? || s.chains.value.JArr?
    requires s.protocols.None? || s.protocols.value.JArr?
    requires s.faq.None? || s.faq.value.JArr?
    requires s.changelog.None? || s.changelog.value.JArr?
    ensures NonArrayFields(StrategyJsonPage.Transform(s, today)) == []
  {
    var d := StrategyJsonPage.Transform(s, today);
    StrategyJsonPage.TransformMembers(s, today);
    ArraysOkWhen(d);
  }

  /** Filtering a list whose head fails and whose tail all passes gives the tail. */
  lemma FilterDropsHead<T(!new)>(x: T, rest: seq<T>, p: T -> bool)
    requires !p(x)
    requires forall i :: 0 <= i < |rest| ==> p(rest[i])
    ensures Filter([x] + rest, p) == rest
  {
    FilterCons(x, rest, p);
    FilterAll(rest, p);
  }

  /** A document that has `slug` and no other required member misses all
      the others, in declared order. */
  lemma AllButSlugMissing(d: map<string, Json>)
    requires "slug" in d
    requires forall i :: 1 <= i < |RequiredFields| ==> RequiredFields[i] !in d
    ensures MissingFields(d) == RequiredFields[1..]
  {
    assert RequiredFields == ["slug"] + RequiredFields[1..];
    FilterDropsHead("slug", RequiredFields[1..], AbsentFrom(d));
  }

  /** The not-found document misses every required member but `slug`. */
  lemma NotFoundMissing(slug: string)
    ensures var d := map["error" := JStr(StrategyJsonPage.NotFoundMessage), "slug" := JStr(slug)];
      MissingFields(d) == RequiredFields[1..]
  {
    var d := map["error" := JStr(StrategyJsonPage.NotFoundMessage), "slug" := JStr(slug)];
    assert forall i :: 1 <= i < |RequiredFields| ==> RequiredFields[i] !in d;
    AllButSlugMissing(d);
  }
}
