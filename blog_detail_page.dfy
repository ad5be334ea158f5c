/** The article page: which post the route slug selects, the choice
    between the loading, error, not-found and article views, and the
    defaults the article view puts in place of falsy fields. Turning a date
    into its "Month D, YYYY" text is not modelled: a shown date is the
    instant itself. */
module BlogDetailPage {
  import opened Wrappers
  import opened Stamps
  import opened Records
  import opened Seqs

  const DefaultAuthor := "Forge Team"
  const DefaultReadTime := 5
  const DefaultCategory := "General"
  const SharePrefix := "Check out this article: "

  // ------------------------------------------------------------- lookup

  /** The post the page holds after the lookup effect: the first post whose
      slug is the route slug (`None` when there is none) once some posts
      have arrived; while the list is empty the effect does not run and the
      previous value stays. */
  function Selected(posts: seq<Post>, slug: string, previous: Option<Post>): (r: Option<Post>)
    ensures |posts| == 0 ==> r == previous
    ensures |posts| > 0 && r.Some? ==> r.value.slug == Some(slug) && r.value in posts
    ensures |posts| > 0 && r.None? <==> |posts| > 0 && forall i :: 0 <= i < |posts| ==> posts[i].slug != Some(slug)
  {
    if |posts| > 0 then Find(posts, (p: Post) => p.slug == Some(slug)) else previous
  }

  /** The page shows the first post in list order whose slug matches. */
  lemma SelectsFirstMatch(posts: seq<Post>, slug: string, previous: Option<Post>, i: nat)
    requires i < |posts| && posts[i].slug == Some(slug)
    requires forall j :: 0 <= j < i ==> posts[j].slug != Some(slug)
    ensures Selected(posts, slug, previous) == Some(posts[i])
  {
    var p := (p: Post) => p.slug == Some(slug);
    var k := FindIndex(posts, p);
    assert p(posts[i]);
    assert k.Some? && p(posts[k.value]);
  }

  // ------------------------------------------------------------- dates

  /** What `formatDate` shows: "Unknown date", a calendar date, or the text
      an invalid date gives. */
  datatype DateLabel = UnknownDate | OnDay(at: Instant) | InvalidDate

  /** `formatDate(value)`: falsy values are unknown; a store timestamp is
      converted with `toDate`; anything else goes through `new Date`. */
  function FormatDate(value: Stamp): (r: DateLabel)
    ensures !Truthy(value) <==> r.UnknownDate?
    ensures value.Timestamp? ==> r == OnDay(value.at)
    ensures Truthy(value) && !value.Timestamp? ==>
      r == (if AsDate(value).Some? then OnDay(AsDate(value).value) else InvalidDate)
  {
    if !Truthy(value) then UnknownDate
    else match value
      case Timestamp(at) => OnDay(at)
      case _ => match AsDate(value)
        case Some(at) => OnDay(at)
        case None => InvalidDate
  }

  // ------------------------------------------------------------- the article

  datatype Body = Html(html: string) | ExcerptOnly(excerpt: string)

  /** The parts of the article view that depend on the post's fields. */
  datatype Article = Article(
    categoryBadge: Option<string>,
    featuredBadge: bool,
    title: string,
    lead: Option<string>,
    author: string,
    date: DateLabel,
    readTime: int,
    body: Body,
    tags: Option<seq<string>>,
    infoCategory: string,
    shareText: string)

  /** `post.category`, when truthy. */
  function CategoryText(p: Post): Option<string> {
    if p.category.Some? && p.category.value != "" then p.category else None
  }

  function ArticleOf(p: Post): (r: Article)
    ensures r.author == (if p.author != "" then p.author else DefaultAuthor)
    ensures r.readTime == (if p.readTime != 0 then p.readTime else DefaultReadTime)
    ensures r.infoCategory == (if p.category.Some? && p.category.value != "" then p.category.value else DefaultCategory)
    ensures r.categoryBadge.Some? <==> p.category.Some? && p.category.value != ""
    ensures r.date == FormatDate(Or(p.publishedAt, p.createdAt))
    ensures r.shareText == SharePrefix + p.title
    ensures r.tags.Some? <==> p.tags.Some? && |p.tags.value| > 0
    ensures r.tags.Some? ==> r.tags.value == p.tags.value
    ensures r.body == (if p.content != "" then Html(p.content) else ExcerptOnly(p.excerpt))
  {
    Article(
      CategoryText(p),
      p.featured,
      p.title,
      if p.excerpt != "" then Some(p.excerpt) else None,
      if p.author != "" then p.author else DefaultAuthor,
      FormatDate(Or(p.publishedAt, p.createdAt)),
      if p.readTime != 0 then p.readTime else DefaultReadTime,
      if p.content != "" then Html(p.content) else ExcerptOnly(p.excerpt),
      if p.tags.Some? && |p.tags.value| > 0 then p.tags else None,
      CategoryText(p).GetOr(DefaultCategory),
      SharePrefix + p.title)
  }

  /** The date shown is the publication date, else the creation date, and is
      unknown only when neither is set. */
  lemma ArticleDate(p: Post)
    ensures Truthy(p.publishedAt) ==> ArticleOf(p).date == FormatDate(p.publishedAt)
    ensures !Truthy(p.publishedAt) ==> ArticleOf(p).date == FormatDate(p.createdAt)
    ensures ArticleOf(p).date.UnknownDate? <==> !Truthy(p.publishedAt) && !Truthy(p.createdAt)
  {
  }

  // ------------------------------------------------------------- the page

  datatype View = Loading | Failed(message: string) | NotFound | Shown(article: Article)

  /** The page: loading first, then the error, then "Article Not Found"
      when no post is held, else the article. */
  function Page(loading: bool, error: string, post: Option<Post>): (r: View)
    ensures loading <==> r.Loading?
    ensures !loading && error != "" <==> r.Failed?
    ensures r.Failed? ==> r.message == error
    ensures r.NotFound? <==> !loading && error == "" && post.None?
    ensures r.Shown? ==> post.Some? && r.article == ArticleOf(post.value)
  {
    if loading then Loading
    else if error != "" then Failed(error)
    else match post
      case None => NotFound
      case Some(p) => Shown(ArticleOf(p))
  }

  /** Once posts have arrived and none has the slug, the page says so. */
  lemma UnknownSlugNotFound(posts: seq<Post>, slug: string, previous: Option<Post>)
    requires |posts| > 0 && forall i :: 0 <= i < |posts| ==> posts[i].slug != Some(slug)
    ensures Page(false, "", Selected(posts, slug, previous)) == NotFound
  {
  }
}
