/** The document-head metadata: the title, description, keyword and robots
    values every page sets, and the schema.org data the article and blog
    listing pages attach. The page's own address (`window.location.href`) is
    a parameter; emitting the tags is not modelled. */
module SeoHead {
  import opened Wrappers
  import opened Stamps
  import opened Records
  import opened Text

  const TitleSuffix := " | Forge DeFi Platform"
  const DefaultTitle := "Forge - AI-Powered DeFi Strategy Automation Platform"
  const DefaultDescription := "Generate optimized multi-chain DeFi yield strategies in seconds with AI. Risk-managed, profit-maximized DeFi automation for builders and traders."
  const BaseKeywords: seq<string> := ["DeFi", "AI", "yield farming", "strategy automation", "blockchain", "crypto",
                                      "multi-chain", "yield optimization"]
  const Separator := ", "
  const NoIndex := "noindex, nofollow"
  const Index := "index, follow"

  /** A possibly undefined string is truthy when it is set and not empty. */
  predicate Given(s: Option<string>) {
    s.Some? && s.value != ""
  }

  // ------------------------------------------------------------- SEOHead

  function FullTitle(title: Option<string>): (r: string)
    ensures Given(title) ==> r == title.value + TitleSuffix
    ensures !Given(title) ==> r == DefaultTitle
  {
    if Given(title) then title.value + TitleSuffix else DefaultTitle
  }

  function FullDescription(description: Option<string>): (r: string)
    ensures Given(description) ==> r == description.value
    ensures !Given(description) ==> r == DefaultDescription
  {
    if Given(description) then description.value else DefaultDescription
  }

  /** The base keywords followed by the caller's, joined with ", ". */
  function FullKeywords(keywords: seq<string>): (r: string)
    ensures |Join(BaseKeywords, Separator)| <= |r|
    ensures r[..|Join(BaseKeywords, Separator)|] == Join(BaseKeywords, Separator)
  {
    JoinExtend(BaseKeywords, keywords, Separator);
    Join(BaseKeywords + keywords, Separator)
  }

  /** The caller's keywords are appended after the base list, one separator
      between the two parts. */
  lemma KeywordsAppend(keywords: seq<string>)
    ensures |keywords| == 0 ==> FullKeywords(keywords) == Join(BaseKeywords, Separator)
    ensures |keywords| > 0 ==>
      FullKeywords(keywords) == Join(BaseKeywords, Separator) + Separator + Join(keywords, Separator)
  {
    JoinExtend(BaseKeywords, keywords, Separator);
  }

  /** `robots` and `googlebot`. */
  function Robots(noIndex: bool): (r: string)
    ensures r == NoIndex <==> noIndex
    ensures r == Index <==> !noIndex
  {
    if noIndex then NoIndex else Index
  }

  /** The schema.org entry of one article. */
  datatype Posting = Posting(
    headline: string,
    description: string,
    author: string,
    datePublished: Stamp,
    dateModified: Stamp,
    pageId: string,
    image: string,
    keywords: string,
    articleSection: Option<string>,
    wordCount: nat)

  /** One article in the blog listing's schema.org data. */
  datatype ListedPost = ListedPost(headline: string, description: string, author: string,
                                   datePublished: Stamp, url: string)

  datatype StructuredData = PostingData(posting: Posting) | BlogData(blogPost: seq<ListedPost>)

  datatype Props = Props(
    title: Option<string>,
    description: Option<string>,
    keywords: seq<string>,
    canonicalUrl: Option<string>,
    ogImage: Option<string>,
    ogType: string,
    structuredData: Option<StructuredData>,
    noIndex: bool)

  /** The values the head ends up with. `url` is written to both `og:url` and
      `twitter:url`; `image`, `canonical` and `structuredData` are written
      only when set. */
  datatype Head = Head(
    title: string,
    description: string,
    keywords: string,
    robots: string,
    googlebot: string,
    canonical: Option<string>,
    ogType: string,
    url: string,
    image: Option<string>,
    structuredData: Option<StructuredData>)

  function SeoHead(p: Props, location: string): (r: Head)
    ensures r.title == FullTitle(p.title) && r.description == FullDescription(p.description)
    ensures r.keywords == FullKeywords(p.keywords)
    ensures r.robots == r.googlebot == Robots(p.noIndex)
    ensures r.url == (if Given(p.canonicalUrl) then p.canonicalUrl.value else location)
    ensures r.canonical.Some? <==> Given(p.canonicalUrl)
    ensures r.image.Some? <==> Given(p.ogImage)
  {
    Head(
      FullTitle(p.title),
      FullDescription(p.description),
      FullKeywords(p.keywords),
      Robots(p.noIndex),
      Robots(p.noIndex),
      if Given(p.canonicalUrl) then p.canonicalUrl else None,
      p.ogType,
      if Given(p.canonicalUrl) then p.canonicalUrl.value else location,
      if Given(p.ogImage) then p.ogImage else None,
      p.structuredData)
  }

  // ------------------------------------------------------------- BlogPostSEO

  const Site := "https://forge.ai"
  const BlogBase := "https://forge.ai/blog/"
  const DefaultImage := "https://forge.ai/og-image.jpg"
  const DefaultPostKeywords := "DeFi, cryptocurrency, blockchain"

  /** The post's picture on the site, or the default one. */
  function PostImage(post: Post): (r: string)
    ensures post.imageUrl != "" ==> r == Site + post.imageUrl
    ensures post.imageUrl == "" ==> r == DefaultImage
  {
    if post.imageUrl != "" then Site + post.imageUrl else DefaultImage
  }

  /** `post.tags?.join(', ') || 'DeFi, cryptocurrency, blockchain'`. */
  function PostKeywords(post: Post): (r: string)
    ensures r != ""
  {
    var joined := if post.tags.Some? then Join(post.tags.value, Separator) else "";
    if joined != "" then joined else DefaultPostKeywords
  }

  /** The tags, joined, are the keywords; the default stands in exactly when
      the tags join to nothing: no tags, an empty list, or a list holding
      one empty tag. */
  lemma PostKeywordsDefault(post: Post)
    ensures post.tags.None? || post.tags.value == [] || post.tags.value == [""] ==>
      PostKeywords(post) == DefaultPostKeywords
    ensures post.tags.Some? && post.tags.value != [] && post.tags.value != [""] ==>
      PostKeywords(post) == Join(post.tags.value, Separator)
  {
    if post.tags.Some? && post.tags.value != [] && post.tags.value != [""] {
      var t := post.tags.value;
      if |t| == 1 {
        assert t == [t[0]];
        JoinNonEmpty(t, Separator);
      } else {
        assert Join(t, Separator) == t[0] + Separator + Join(t[1..], Separator);
      }
    }
  }

  function PostingOf(post: Post): (r: Posting)
    ensures r.pageId == BlogBase + Interpolate(post.slug)
    ensures r.image == PostImage(post) && r.keywords == PostKeywords(post)
    ensures r.wordCount == |post.content|
  {
    Posting(post.title, post.excerpt, post.author, post.publishedAt, post.updatedAt,
            BlogBase + Interpolate(post.slug), PostImage(post), PostKeywords(post),
            post.category, |post.content|)
  }

  /** `BlogPostSEO`: the article's head. */
  function BlogPostProps(post: Post): (r: Props)
    ensures r.title == Some(post.title) && r.description == Some(post.excerpt)
    ensures r.keywords == post.tags.GetOr([])
    ensures r.canonicalUrl == Some(BlogBase + Interpolate(post.slug))
    ensures r.ogImage == Some(PostImage(post)) && r.ogType == "article"
    ensures r.structuredData == Some(PostingData(PostingOf(post))) && !r.noIndex
  {
    Props(Some(post.title), Some(post.excerpt), post.tags.GetOr([]),
          Some(BlogBase + Interpolate(post.slug)), Some(PostImage(post)), "article",
          Some(PostingData(PostingOf(post))), false)
  }

  /** An article's head points at the article: its canonical URL, `og:url`
      and schema.org page id are the same address. */
  lemma PostAddressesAgree(post: Post, location: string)
    ensures var h := SeoHead(BlogPostProps(post), location);
      h.canonical == Some(BlogBase + Interpolate(post.slug))
      && h.url == BlogBase + Interpolate(post.slug)
      && h.url == PostingOf(post).pageId
  {
  }

  // ------------------------------------------------------------- BlogListingSEO

  const ListingLimit := 10

  function ListedOf(post: Post): ListedPost {
    ListedPost(post.title, post.excerpt, post.author, post.publishedAt, BlogBase + Interpolate(post.slug))
  }

  /** `posts.slice(0, 10).map(...)`: the first ten posts, in order. */
  function Listed(posts: seq<Post>): (r: seq<ListedPost>)
    ensures |r| == if |posts| < ListingLimit then |posts| else ListingLimit
    ensures forall i :: 0 <= i < |r| ==> r[i] == ListedOf(posts[i])
  {
    var n := if |posts| < ListingLimit then |posts| else ListingLimit;
    seq(n, i requires 0 <= i < n => ListedOf(posts[i]))
  }

  /** Listing more posts beyond the tenth changes nothing. */
  lemma ListedIgnoresTail(posts: seq<Post>, more: seq<Post>)
    requires |posts| >= ListingLimit
    ensures Listed(posts + more) == Listed(posts)
  {
    var a := Listed(posts + more);
    var b := Listed(posts);
    assert |a| == |b|;
    forall i | 0 <= i < |a| ensures a[i] == b[i] {
      assert (posts + more)[i] == posts[i];
    }
  }

  const ListingTitle := "Blog - DeFi Strategies & Insights"
  const ListingDescription := "Discover the latest DeFi strategies, yield farming techniques, and blockchain insights. Expert analysis and guides for maximizing your crypto returns."
  const ListingKeywords: seq<string> := ["DeFi blog", "cryptocurrency strategies", "yield farming guides",
                                         "blockchain insights", "DeFi education"]

  /** `BlogListingSEO`: the blog index's head. */
  function BlogListingProps(posts: seq<Post>): (r: Props)
    ensures r.structuredData == Some(BlogData(Listed(posts)))
    ensures r.title == Some(ListingTitle) && r.canonicalUrl == Some("https://forge.ai/blog")
  {
    Props(Some(ListingTitle), Some(ListingDescription), ListingKeywords, Some("https://forge.ai/blog"),
          Some("https://forge.ai/blog-og-image.jpg"), "website", Some(BlogData(Listed(posts))), false)
  }
}
