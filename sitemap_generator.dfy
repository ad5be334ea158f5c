/** The sitemap builder: the list of pages with their last-modified day,
    change frequency and priority, and its rendering as a sitemaps.org 0.9
    `<urlset>` document. "Today" (`currentDate`) is a parameter. */
module SitemapGenerator {
  import opened Wrappers
  import opened Stamps
  import opened Records
  import opened Text

  const BaseUrl := "https://forgedefi.com"

  datatype Entry = Entry(url: string, lastmod: string, changefreq: string, priority: string)

  // ------------------------------------------------------------- dates

  /** `t` is a timestamp, a valid date, or a string or number that parses to
      a valid date, whose calendar day is `d`. */
  ghost predicate ConvertsTo(t: Stamp, d: Day) {
    match t
    case Timestamp(at) => at.day == d
    case DateObject(p) => p.Some? && p.value.day == d
    case DateText(_, p) => p.Some? && p.value.day == d
    case EpochMillis(_, p) => p.Some? && p.value.day == d
    case _ => false
  }

  /** `getSafeDate`: the calendar day of a timestamp-like value, falling back
      to `currentDate` for a falsy value, an invalid date (whose
      `toISOString` throws), an unparseable string or number, or a value of
      any other kind. */
  function SafeDate(t: Stamp, currentDate: Day): (r: Day)
    ensures !Truthy(t) ==> r == currentDate
    ensures t.OtherValue? ==> r == currentDate
    ensures forall d :: Truthy(t) && ConvertsTo(t, d) ==> r == d
    ensures r == currentDate || ConvertsTo(t, r)
  {
    if !Truthy(t) then currentDate
    else match t
      case Timestamp(at) => at.day
      case DateObject(p) => if p.Some? then p.value.day else currentDate
      case DateText(_, p) => if p.Some? then p.value.day else currentDate
      case EpochMillis(_, p) => if p.Some? then p.value.day else currentDate
      case _ => currentDate
  }

  // ------------------------------------------------------------- entries

  /** A name with no slash, put under a path ending in a slash, is the last
      segment of the result. */
  lemma LastSegmentUnder(path: string, name: string)
    requires |path| > 0 && path[|path| - 1] == '/'
    ensures '/' !in name ==> LastSegment(path + name) == name
  {
    if '/' !in name {
      LastSegmentAfterSlash(path, name);
    }
  }

  function StaticPages(currentDate: Day): (r: seq<Entry>)
    ensures |r| == 5
    ensures forall i :: 0 <= i < |r| ==> r[i].lastmod == currentDate
    ensures forall i, j :: 0 <= i < j < |r| ==> r[i].url != r[j].url
  {
    [ Entry(BaseUrl + "/", currentDate, "weekly", "1.0"),
      Entry(BaseUrl + "/strategies", currentDate, "daily", "0.9"),
      Entry(BaseUrl + "/blog", currentDate, "weekly", "0.8"),
      Entry(BaseUrl + "/about", currentDate, "monthly", "0.7"),
      Entry(BaseUrl + "/contact", currentDate, "monthly", "0.6") ]
  }

  function StrategyEntry(s: Strategy, currentDate: Day): (r: Entry)
    ensures r.lastmod == currentDate || exists d: Day :: d == r.lastmod && ConvertsTo(Or(s.updatedAt, s.createdAt), d)
    ensures '/' !in s.id ==> LastSegment(r.url) == s.id
  {
    LastSegmentUnder(BaseUrl + "/strategies/", s.id);
    Entry(BaseUrl + "/strategies/" + s.id, SafeDate(Or(s.updatedAt, s.createdAt), currentDate),
          "weekly", "0.8")
  }

  function BlogEntry(p: Post, currentDate: Day): (r: Entry)
    ensures r.lastmod == currentDate || exists d: Day :: d == r.lastmod && ConvertsTo(Or(Or(p.updatedAt, p.publishedAt), p.createdAt), d)
    ensures '/' !in Interpolate(p.slug) ==> LastSegment(r.url) == Interpolate(p.slug)
  {
    LastSegmentUnder(BaseUrl + "/blog/", Interpolate(p.slug));
    Entry(BaseUrl + "/blog/" + Interpolate(p.slug),
          SafeDate(Or(Or(p.updatedAt, p.publishedAt), p.createdAt), currentDate),
          "monthly", "0.7")
  }

  /** `generateSitemapData`: the static pages, then one entry per strategy,
      then one per blog post, each group in input order. */
  function SitemapData(strategies: seq<Strategy>, posts: seq<Post>, currentDate: Day): (r: seq<Entry>)
    ensures |r| == 5 + |strategies| + |posts|
    ensures r[..5] == StaticPages(currentDate)
    ensures forall i :: 0 <= i < |strategies| ==> r[5 + i] == StrategyEntry(strategies[i], currentDate)
    ensures forall i :: 0 <= i < |posts| ==> r[5 + |strategies| + i] == BlogEntry(posts[i], currentDate)
  {
    StaticPages(currentDate)
    + seq(|strategies|, i requires 0 <= i < |strategies| => StrategyEntry(strategies[i], currentDate))
    + seq(|posts|, i requires 0 <= i < |posts| => BlogEntry(posts[i], currentDate))
  }

  /** Every static page is stamped with today. */
  lemma StaticPagesToday(strategies: seq<Strategy>, posts: seq<Post>, currentDate: Day)
    ensures forall i :: 0 <= i < 5 ==> SitemapData(strategies, posts, currentDate)[i].lastmod == currentDate
  {
    var r := SitemapData(strategies, posts, currentDate);
    assert r[..5] == StaticPages(currentDate);
    forall i | 0 <= i < 5 ensures r[i].lastmod == currentDate {
      assert r[i] == r[..5][i];
    }
  }

  /** A strategy's entry is dated by `updatedAt` when set, else by `createdAt`. */
  lemma StrategyLastmod(s: Strategy, currentDate: Day)
    ensures var e := StrategyEntry(s, currentDate);
      e.url == BaseUrl + "/strategies/" + s.id && e.changefreq == "weekly" && e.priority == "0.8"
      && (Truthy(s.updatedAt) ==> e.lastmod == SafeDate(s.updatedAt, currentDate))
      && (!Truthy(s.updatedAt) ==> e.lastmod == SafeDate(s.createdAt, currentDate))
  {
  }

  /** A post's entry is dated by the first set field among `updatedAt`,
      `publishedAt` and `createdAt`, and by today when none is set. */
  lemma BlogLastmod(p: Post, currentDate: Day)
    ensures var e := BlogEntry(p, currentDate);
      e.url == BaseUrl + "/blog/" + Interpolate(p.slug) && e.changefreq == "monthly" && e.priority == "0.7"
      && (Truthy(p.updatedAt) ==> e.lastmod == SafeDate(p.updatedAt, currentDate))
      && (!Truthy(p.updatedAt) && Truthy(p.publishedAt) ==> e.lastmod == SafeDate(p.publishedAt, currentDate))
      && (!Truthy(p.updatedAt) && !Truthy(p.publishedAt) ==> e.lastmod == SafeDate(p.createdAt, currentDate))
      && (!Truthy(p.updatedAt) && !Truthy(p.publishedAt) && !Truthy(p.createdAt) ==> e.lastmod == currentDate)
  {
  }

  /** The last path segment of a strategy's sitemap URL is its id, for an id
      without a slash. */
  lemma StrategyUrlEndsWithId(s: Strategy, currentDate: Day)
    requires '/' !in s.id
    ensures LastSegment(StrategyEntry(s, currentDate).url) == s.id
  {
    LastSegmentAfterSlash(BaseUrl + "/strategies/", s.id);
  }

  // ------------------------------------------------------------- XML

  const XmlHeader := "<?xml version=\"1.0\" encoding=\"UTF-8\"?>"
  const UrlsetOpen := "<urlset xmlns=\"http://www.sitemaps.org/schemas/sitemap/0.9\">"
  const UrlsetClose := "</urlset>"
  const LocOpen := "\n  <url>\n    <loc>"

  /** One `<url>` block; the values are written verbatim, without escaping,
      so the URL stands as given right after `<loc>`. */
  function UrlBlock(e: Entry): (r: string)
    ensures |LocOpen| <= |r| && r[..|LocOpen|] == LocOpen
    ensures OccursAt(r, e.url, |LocOpen|)
  {
    assert (LocOpen + e.url + "</loc>\n    <lastmod>" + e.lastmod
      + "</lastmod>\n    <changefreq>" + e.changefreq
      + "</changefreq>\n    <priority>" + e.priority + "</priority>\n  </url>")[..|LocOpen| + |e.url|]
      == LocOpen + e.url;
    LocOpen + e.url + "</loc>\n    <lastmod>" + e.lastmod
    + "</lastmod>\n    <changefreq>" + e.changefreq
    + "</changefreq>\n    <priority>" + e.priority + "</priority>\n  </url>"
  }

  /** The blocks of `entries` joined with no separator. */
  function UrlBlocks(entries: seq<Entry>): string {
    if |entries| == 0 then "" else UrlBlock(entries[0]) + UrlBlocks(entries[1..])
  }

  /** `generateSitemapXML`. */
  function SitemapXml(entries: seq<Entry>): (r: string)
    ensures |r| >= |XmlHeader + UrlsetOpen + UrlsetClose|
    ensures r[..|XmlHeader + UrlsetOpen|] == XmlHeader + UrlsetOpen
    ensures r[|r| - |UrlsetClose|..] == UrlsetClose
  {
    XmlHeader + UrlsetOpen + UrlBlocks(entries) + UrlsetClose
  }

  /** The blocks of two lists of entries are the blocks of each, in order. */
  lemma {:induction false} UrlBlocksAppend(a: seq<Entry>, b: seq<Entry>)
    ensures UrlBlocks(a + b) == UrlBlocks(a) + UrlBlocks(b)
  {
    if |a| == 0 {
      assert a + b == b;
    } else {
      assert (a + b)[1..] == a[1..] + b;
      UrlBlocksAppend(a[1..], b);
    }
  }

  /** An empty list gives the header, the opening and the closing tag only. */
  lemma XmlOfNothing()
    ensures SitemapXml([]) == XmlHeader + UrlsetOpen + UrlsetClose
  {
  }

  /** Appending an entry appends exactly its block before the closing tag. */
  lemma XmlAppend(entries: seq<Entry>, e: Entry)
    ensures SitemapXml(entries + [e]) == XmlHeader + UrlsetOpen + (UrlBlocks(entries) + UrlBlock(e)) + UrlsetClose
  {
    UrlBlocksAppend(entries, [e]);
    UrlBlocksOne(e);
  }

  lemma UrlBlocksOne(e: Entry)
    ensures UrlBlocks([e]) == UrlBlock(e)
  {
    assert [e][1..] == [];
  }
}
