/** The blog listing: the category and tag facets offered in the selects,
    the search, category and tag filters, the newest-first sort, and the
    split into featured articles and the grid of the others. As on the
    strategy listing, with no filter active the shown list IS the posts
    array, and the sort reorders it in place. */
module BlogPage {
  import opened Wrappers
  import opened Stamps
  import opened Records
  import opened Text
  import opened Seqs
  import opened Sorting

  const All := "all"

  // ------------------------------------------------------------- facets

  /** `posts.map(post => post.category)`. */
  function CategoriesOf(posts: seq<Post>): (r: seq<Option<string>>)
    ensures |r| == |posts| && forall i :: 0 <= i < |posts| ==> r[i] == posts[i].category
  {
    seq(|posts|, i requires 0 <= i < |posts| => posts[i].category)
  }

  /** The category select: "all", then each distinct category once, in
      order of first appearance. A missing category is an entry too. */
  function Categories(posts: seq<Post>): (r: seq<Option<string>>)
    ensures |r| >= 1 && r[0] == Some(All)
    ensures forall c :: c in r[1..] <==> exists i :: 0 <= i < |posts| && posts[i].category == c
    ensures NoDuplicates(r[1..])
    ensures r[1..] == Distinct(CategoriesOf(posts))
  {
    var d := Distinct(CategoriesOf(posts));
    assert ([Some(All)] + d)[1..] == d;
    forall c | c in d ensures exists i :: 0 <= i < |posts| && posts[i].category == c {
      var i :| 0 <= i < |CategoriesOf(posts)| && CategoriesOf(posts)[i] == c;
    }
    forall c | exists i :: 0 <= i < |posts| && posts[i].category == c ensures c in d {
      var i :| 0 <= i < |posts| && posts[i].category == c;
      assert CategoriesOf(posts)[i] == c;
    }
    [Some(All)] + d
  }

  /** `post.tags || []`. */
  function TagsOf(p: Post): seq<string> {
    p.tags.GetOr([])
  }

  /** `posts.flatMap(post => post.tags || [])`. */
  function AllTags(posts: seq<Post>): (r: seq<string>)
    ensures forall i :: 0 <= i < |posts| ==> multiset(TagsOf(posts[i])) <= multiset(r)
  {
    if |posts| == 0 then []
    else
      assert forall i :: 1 <= i < |posts| ==> posts[i] == posts[1..][i - 1];
      TagsOf(posts[0]) + AllTags(posts[1..])
  }

  /** A tag is in the flattened list exactly when some post carries it. */
  lemma {:induction false} AllTagsMember(posts: seq<Post>, t: string)
    ensures t in AllTags(posts) <==> exists i :: 0 <= i < |posts| && t in TagsOf(posts[i])
  {
    if |posts| > 0 {
      AllTagsMember(posts[1..], t);
      if t in AllTags(posts[1..]) {
        var i :| 0 <= i < |posts[1..]| && t in TagsOf(posts[1..][i]);
        assert t in TagsOf(posts[i + 1]);
      }
      if exists i :: 0 <= i < |posts| && t in TagsOf(posts[i]) {
        var i :| 0 <= i < |posts| && t in TagsOf(posts[i]);
        if i > 0 {
          assert t in TagsOf(posts[1..][i - 1]);
        }
      }
    }
  }

  /** The tag select: "all", then each distinct tag once, in order of first
      appearance; a post without tags contributes none. */
  function UniqueTags(posts: seq<Post>): (r: seq<string>)
    ensures |r| >= 1 && r[0] == All
    ensures r[1..] == Distinct(AllTags(posts))
  {
    var d := Distinct(AllTags(posts));
    assert ([All] + d)[1..] == d;
    [All] + d
  }

  /** The tag select offers exactly the tags some post carries, each once. */
  lemma UniqueTagsMembers(posts: seq<Post>, t: string)
    ensures t in UniqueTags(posts)[1..] <==> exists i :: 0 <= i < |posts| && posts[i].tags.Some? && t in posts[i].tags.value
    ensures NoDuplicates(UniqueTags(posts)[1..])
  {
    AllTagsMember(posts, t);
  }

  // ------------------------------------------------------------- filters

  /** The search test: the lower-cased term occurs in the lower-cased title,
      excerpt, some tag (when the post has tags) or author. */
  predicate MatchesSearch(p: Post, term: string): (r: bool)
    ensures term == "" ==> r
  {
    var t := ToLower(term);
    Contains(ToLower(p.title), t) || Contains(ToLower(p.excerpt), t)
    || (p.tags.Some? && SomeLowerContains(p.tags.value, t))
    || Contains(ToLower(p.author), t)
  }

  function SearchHit(term: string): Post -> bool {
    (p: Post) => MatchesSearch(p, term)
  }

  function CategoryIs(category: string): Post -> bool {
    (p: Post) => p.category == Some(category)
  }

  /** `post.tags && post.tags.includes(tag)`. */
  function HasTag(tag: string): Post -> bool {
    (p: Post) => p.tags.Some? && tag in p.tags.value
  }

  /** The filter steps of the listing effect, each applied only when its
      control is set. */
  function Select(s: seq<Post>, term: string, category: string, tag: string): (r: seq<Post>)
    ensures |r| <= |s|
    ensures forall p :: p in r <==> p in s && Keeps(p, term, category, tag)
  {
    var searched := if term != "" then Filter(s, SearchHit(term)) else s;
    var categorised := if category != All then Filter(searched, CategoryIs(category)) else searched;
    if tag != All then Filter(categorised, HasTag(tag)) else categorised
  }

  /** The conjunction of the active filters. */
  predicate Keeps(p: Post, term: string, category: string, tag: string) {
    (term == "" || MatchesSearch(p, term))
    && (category == All || p.category == Some(category))
    && (tag == All || (p.tags.Some? && tag in p.tags.value))
  }

  function KeepsFn(term: string, category: string, tag: string): Post -> bool {
    (p: Post) => Keeps(p, term, category, tag)
  }

  /** The filter chain is one filter on the conjunction, in input order. */
  lemma SelectIsOneFilter(s: seq<Post>, term: string, category: string, tag: string)
    ensures Select(s, term, category, tag) == Filter(s, KeepsFn(term, category, tag))
  {
    assert Select(s, term, category, tag)
        == FilterIf(FilterIf(FilterIf(s, term != "", SearchHit(term)), category != All, CategoryIs(category)),
                    tag != All, HasTag(tag));
    FilterChain(s, term != "", SearchHit(term), category != All, CategoryIs(category), tag != All, HasTag(tag),
                KeepsFn(term, category, tag));
  }

  /** With no control set, nothing is filtered out. */
  lemma SelectNothing(s: seq<Post>)
    ensures Select(s, "", All, All) == s
  {
  }

  /** A post without tags never passes a tag filter. */
  lemma UntaggedExcluded(s: seq<Post>, term: string, category: string, tag: string, p: Post)
    requires tag != All && p.tags.None?
    ensures p !in Select(s, term, category, tag)
  {
    SelectIsOneFilter(s, term, category, tag);
  }

  // ------------------------------------------------------------- sort

  /** `new Date(b.publishedAt) - new Date(a.publishedAt)`; when either date
      is invalid the difference is `NaN`, which the sort reads as 0. */
  function NewestFirst(a: Post, b: Post): (r: int)
    ensures AsDate(a.publishedAt).None? || AsDate(b.publishedAt).None? ==> r == 0
    ensures AsDate(a.publishedAt).Some? && AsDate(b.publishedAt).Some? ==>
      (r < 0 <==> AsDate(a.publishedAt).value.ms > AsDate(b.publishedAt).value.ms)
      && (r == 0 <==> AsDate(a.publishedAt).value.ms == AsDate(b.publishedAt).value.ms)
  {
    match (AsDate(a.publishedAt), AsDate(b.publishedAt))
    case (Some(x), Some(y)) => y.ms - x.ms
    case _ => 0
  }

  /** Every publication date parses, and none is older than a later one. */
  predicate NewestFirstOrder(r: seq<Post>) {
    forall i, j :: 0 <= i < j < |r| ==>
      AsDate(r[i].publishedAt).Some? && AsDate(r[j].publishedAt).Some?
      && AsDate(r[i].publishedAt).value.ms >= AsDate(r[j].publishedAt).value.ms
  }

  lemma SortedIsNewestFirst(r: seq<Post>)
    requires Sorted(r, NewestFirst)
    requires forall i :: 0 <= i < |r| ==> AsDate(r[i].publishedAt).Some?
    ensures NewestFirstOrder(r)
  {
    forall i, j | 0 <= i < j < |r|
      ensures AsDate(r[i].publishedAt).Some? && AsDate(r[j].publishedAt).Some?
        && AsDate(r[i].publishedAt).value.ms >= AsDate(r[j].publishedAt).value.ms
    {
      assert NewestFirst(r[i], r[j]) <= 0;
    }
  }

  /** When every publication date parses, the sorted list is newest first. */
  lemma SortedNewestFirst(t: seq<Post>)
    requires forall p :: p in t ==> AsDate(p.publishedAt).Some?
    ensures NewestFirstOrder(SortSeq(t, NewestFirst))
  {
    SortSorts(t, NewestFirst, t);
    var r := SortSeq(t, NewestFirst);
    forall i | 0 <= i < |r| ensures AsDate(r[i].publishedAt).Some? {
      SortMember(t, NewestFirst, r[i]);
    }
    SortedIsNewestFirst(r);
  }

  /** When no publication date parses, as with store timestamps, every pair
      compares equal and the sort keeps the order the posts came in. */
  lemma UnparsedDatesKeepOrder(t: seq<Post>)
    requires forall p :: p in t ==> AsDate(p.publishedAt).None?
    ensures SortSeq(t, NewestFirst) == t
  {
    SortKeepsOrder(t, NewestFirst);
  }

  /** Filters only remove and the sort only reorders. */
  lemma ListingIsFilteredPermutation(s: seq<Post>, term: string, category: string, tag: string)
    ensures multiset(SortSeq(Select(s, term, category, tag), NewestFirst))
         == multiset(Filter(s, KeepsFn(term, category, tag)))
  {
    SelectIsOneFilter(s, term, category, tag);
    SortPermutes(Select(s, term, category, tag), NewestFirst);
  }

  // ------------------------------------------------------------- sections

  function IsFeatured(p: Post): bool {
    p.featured
  }

  function NotFeatured(p: Post): bool {
    !p.featured
  }

  datatype Grid = Skeleton | Posts(posts: seq<Post>) | NoArticles

  /** The featured section, shown only when some shown post is featured, and
      the "Latest Articles" grid: placeholders while loading, else the
      shown posts that are not featured, else the "No articles found"
      panel when nothing is shown. */
  datatype Listing = Listing(featured: Option<seq<Post>>, latest: Grid)

  function Sections(shown: seq<Post>, loading: bool): (r: Listing)
    ensures r.featured.Some? <==> exists i :: 0 <= i < |shown| && shown[i].featured
    ensures r.featured.Some? ==> r.featured.value == Filter(shown, IsFeatured)
    ensures loading ==> r.latest.Skeleton?
    ensures !loading && |shown| > 0 ==> r.latest == Posts(Filter(shown, NotFeatured))
    ensures !loading && |shown| == 0 ==> r.latest.NoArticles?
  {
    var anyFeatured := exists i :: 0 <= i < |shown| && shown[i].featured;
    Listing(if anyFeatured then Some(Filter(shown, IsFeatured)) else None,
            if loading then Skeleton else if |shown| > 0 then Posts(Filter(shown, NotFeatured)) else NoArticles)
  }

  /** Once loaded, every shown post is in exactly one of the featured list
      and the grid. */
  lemma SplitIsPartition(shown: seq<Post>)
    requires |shown| > 0
    ensures var r := Sections(shown, false);
      multiset(r.featured.GetOr([])) + multiset(r.latest.posts) == multiset(shown)
  {
    Partition(shown, IsFeatured, NotFeatured);
    var r := Sections(shown, false);
    if r.featured.None? {
      FilterNone(shown, IsFeatured);
    }
  }

  // ------------------------------------------------------------- the page

  class BlogView {
    /** The posts the store hook delivered. */
    var posts: array<Post>
    /** The filtered-posts state, which the page renders. */
    var filtered: array<Post>
    var searchTerm: string
    var selectedCategory: string
    var selectedTag: string

    /** The filtered state is the posts array itself exactly when there are
        posts and no filter is active; otherwise it is another array. */
    predicate Valid()
      reads this
    {
      (filtered == posts) == (posts.Length > 0 && !Active())
    }

    /** The first render: no posts yet, nothing shown, no filter set. */
    constructor ()
      ensures Valid()
      ensures posts.Length == 0 && filtered.Length == 0
      ensures searchTerm == "" && selectedCategory == All && selectedTag == All
    {
      posts := new Post[0];
      filtered := new Post[0];
      searchTerm, selectedCategory, selectedTag := "", All, All;
    }

    predicate Active()
      reads this
    {
      searchTerm != "" || selectedCategory != All || selectedTag != All
    }

    ghost predicate Shows(input: seq<Post>)
      reads this, filtered
    {
      filtered[..] == SortSeq(Select(input, searchTerm, selectedCategory, selectedTag), NewestFirst)
    }

    /** The listing effect: an empty list for no posts; otherwise, with no
        filter active, the posts array sorted in place and shown, else a new
        array of the posts that pass, sorted. */
    method Refresh()
      modifies this, posts
      ensures posts == old(posts) && searchTerm == old(searchTerm)
      ensures selectedCategory == old(selectedCategory) && selectedTag == old(selectedTag)
      ensures Shows(old(posts[..])) && Valid()
      ensures posts.Length == 0 ==> filtered.Length == 0
      ensures posts.Length > 0 && !Active() ==> filtered == posts
      ensures posts.Length == 0 || Active() ==> fresh(filtered) && posts[..] == old(posts[..])
    {
      ghost var input := posts[..];
      if posts.Length == 0 {
        filtered := new Post[0];
        return;
      }
      if !Active() {
        filtered := posts;
        SelectNothing(input);
      } else {
        var s := Select(posts[..], searchTerm, selectedCategory, selectedTag);
        filtered := new Post[|s|](i requires 0 <= i < |s| => s[i]);
      }
      assert filtered[..] == Select(input, searchTerm, selectedCategory, selectedTag);
      InsertionSort(filtered, NewestFirst);
    }

    /** The hook delivers a new list of posts. The filtered state always
        becomes a different array, so the page renders the result. */
    method Receive(data: seq<Post>)
      requires Valid()
      modifies this
      ensures Valid() && fresh(posts) && searchTerm == old(searchTerm)
      ensures selectedCategory == old(selectedCategory) && selectedTag == old(selectedTag)
      ensures Shows(data) && filtered != old(filtered)
    {
      posts := new Post[|data|](i requires 0 <= i < |data| => data[i]);
      assert posts[..] == data;
      Refresh();
    }

    /** Typing a search term. The same term changes nothing (React skips the
        update); a different one always makes the filtered state a different
        array, so the page renders the result. */
    method SetSearchTerm(term: string)
      requires Valid()
      modifies this, posts
      ensures Valid() && posts == old(posts)
      ensures searchTerm == term && selectedCategory == old(selectedCategory) && selectedTag == old(selectedTag)
      ensures term == old(searchTerm) ==> filtered == old(filtered) && posts[..] == old(posts[..])
      ensures term != old(searchTerm) ==> Shows(old(posts[..])) && filtered != old(filtered)
    {
      if term != searchTerm {
        searchTerm := term;
        Refresh();
      }
    }

    /** Choosing a category; as for the search term. */
    method SetCategory(category: string)
      requires Valid()
      modifies this, posts
      ensures Valid() && posts == old(posts)
      ensures selectedCategory == category && searchTerm == old(searchTerm) && selectedTag == old(selectedTag)
      ensures category == old(selectedCategory) ==> filtered == old(filtered) && posts[..] == old(posts[..])
      ensures category != old(selectedCategory) ==> Shows(old(posts[..])) && filtered != old(filtered)
    {
      if category != selectedCategory {
        selectedCategory := category;
        Refresh();
      }
    }

    /** Choosing a tag; as for the search term. */
    method SetTag(tag: string)
      requires Valid()
      modifies this, posts
      ensures Valid() && posts == old(posts)
      ensures selectedTag == tag && searchTerm == old(searchTerm) && selectedCategory == old(selectedCategory)
      ensures tag == old(selectedTag) ==> filtered == old(filtered) && posts[..] == old(posts[..])
      ensures tag != old(selectedTag) ==> Shows(old(posts[..])) && filtered != old(filtered)
    {
      if tag != selectedTag {
        selectedTag := tag;
        Refresh();
      }
    }

    /** "Clear Filters", a button of the "No articles found" panel only:
        search, category and tag go back to their initial values in one
        update. When a filter was active the shown list becomes every post,
        newest first; when none was, React skips the update. */
    method ClearFilters()
      requires Valid() && filtered.Length == 0
      modifies this, posts
      ensures Valid() && posts == old(posts)
      ensures searchTerm == "" && selectedCategory == All && selectedTag == All
      ensures old(Active()) ==> filtered[..] == SortSeq(old(posts[..]), NewestFirst) && filtered != old(filtered)
      ensures !old(Active()) ==> filtered == old(filtered) && posts[..] == old(posts[..])
    {
      if Active() {
        searchTerm, selectedCategory, selectedTag := "", All, All;
        Refresh();
        SelectNothing(old(posts[..]));
      }
    }

    /** What the page shows below the filters. */
    function View(loading: bool): (r: Listing)
      reads this, filtered
      ensures loading ==> r.latest.Skeleton?
      ensures !loading ==> (r.latest.NoArticles? <==> filtered.Length == 0)
      ensures r.featured.Some? ==> forall p :: p in r.featured.value ==> p in filtered[..] && p.featured
    {
      Sections(filtered[..], loading)
    }
  }
}
