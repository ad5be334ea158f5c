# Forge content layer in Dafny

This project models the content layer of Forge, a DeFi strategy catalogue and
blog built with React on a Firestore back end. It covers:

- the two Firestore services (`strategies` and `blog_posts` collections);
- the sitemap generator;
- the machine-readable `/ai/…` JSON endpoints and the script that checks
  their shape;
- the filter, search and sort logic of the strategies and blog listings;
- the blog article page and its SEO head tags;
- the form state of the admin page.

Each core source file becomes one module:

- `SitemapGenerator`, `StrategyJsonPage`, `AiSitemapPage` and
  `JsonEndpointChecks` hold pure functions and the lemmas about them.
- `StrategiesPage` and `BlogPage` each have their filter chain as functions,
  plus a class (`StrategiesView`, `BlogView`) whose methods replay the
  component's state setters and its effect. That effect sorts an `array` in
  place with an insertion sort.
- `BlogDetailPage` and `SeoHead` hold what the page renders, as values.
- `AdminPage` has a class `Admin` whose fields are the component's state
  variables and whose methods are its handlers.
- `StrategiesService` and `BlogService` are classes over a collection
  `docs: map<string, Doc>`.
  - `Create`, `Update`, `Delete`, `IncrementViews` and `Like` replace the map.
  - The list queries are methods proved against `Store.Answers`. That is the
    one ordered answer a Firestore `where … orderBy('createdAt', 'desc')`
    query returns.

Helper modules:

- `Store` holds the schema-less document values, Firestore's cross-type
  value order, `serverTimestamp()` resolution and the ordered query.
- `Sorting` holds the generic insertion sort and its specification
  `SortSeq`.
- `Text`, `Seqs`, `Stamps`, `JsonValues`, `Records` and `Wrappers` hold the
  rest.

JavaScript semantics the code relies on are written out:

- `||` picks by truthiness.
- A template literal renders a missing value as `undefined`.
- Object spread is right-biased, so in `{id, ...data}` a stored `id` field
  overrides the document id.
- `String.replace` with a string pattern replaces only the first occurrence.
- `Array.prototype.sort` reads a `NaN` comparator result as 0.
- `(v || 0) + 1` concatenates when `v` is a non-empty string.

Some consequences of the code that the model keeps:

- `getAllBlogPosts` lists only documents whose `status` is exactly
  `'published'`.
- `how_it_works` yields the step object itself when a step has no truthy
  `description`.
- With no filter active, the strategies and blog listings sort the state
  array itself in place. `filtered` then aliases it, and a later refresh
  starts from the sorted array.
- React renders again only when a state gets a different value. On the
  strategies page the filtered state starts as the strategies array itself.
  With no filter active the effect sorts that array in place and hands the
  same array back, so the screen keeps the order of the last render. On
  first load that is the order of the data; after a new sort key it is the
  previous order. `StrategiesView.shown` is what is on screen.
- Setting a filter or sort state to the value it already has does nothing.
- The strategy submit payload carries a `readTime` parsed from a field the
  strategy form does not have, which yields `NaN`.

## Model

| member | source | states |
|---|---|---|
| SitemapGenerator.SafeDate | src/utils/sitemapGenerator.js:7-42 | a falsy or unrecognised value gives the current date; a value that converts to a day gives that day; the result is always the current date or a day the value converts to |
| SitemapGenerator.SitemapData | src/utils/sitemapGenerator.js:44-95 | the sitemap is the five static pages, then one entry per strategy, then one per blog post, in input order |
| SitemapGenerator.StaticPagesToday | src/utils/sitemapGenerator.js:45-76 | every static page is dated with the current date |
| SitemapGenerator.StrategyLastmod | src/utils/sitemapGenerator.js:79-84 | a strategy entry has the strategy URL, weekly, 0.8, and is dated from `updatedAt` when truthy, else from `createdAt` |
| SitemapGenerator.BlogLastmod | src/utils/sitemapGenerator.js:87-92 | a post entry has the post URL, monthly, 0.7, and is dated from `updatedAt`, else `publishedAt`, else `createdAt`, else the current date |
| SitemapGenerator.StrategyUrlEndsWithId | src/utils/sitemapGenerator.js:80 | the last path segment of a strategy URL is the strategy id |
| SitemapGenerator.SitemapXml | src/utils/sitemapGenerator.js:98-112 | the XML starts with the declaration and the `urlset` opening tag and ends with the closing tag |
| SitemapGenerator.XmlOfNothing | src/utils/sitemapGenerator.js:98-112 | an empty sitemap renders as declaration, opening and closing tag only |
| SitemapGenerator.UrlBlocksAppend | src/utils/sitemapGenerator.js:103-109 | the `<url>` blocks of two entry lists concatenated are the two renderings concatenated |
| SitemapGenerator.XmlAppend | src/utils/sitemapGenerator.js:103-111 | adding an entry adds exactly its `<url>` block before the closing tag |
| SitemapGenerator.UrlBlocksOne | src/utils/sitemapGenerator.js:103-109 | one entry renders as its own block |
| SitemapGenerator.UrlBlock | src/utils/sitemapGenerator.js:103-109 | a block opens with `<url>` and `<loc>`, and the page URL follows verbatim, unescaped |
| SitemapGenerator.StaticPages | src/utils/sitemapGenerator.js:45-76 | five pages, each with its own URL, all dated with the current date |
| SitemapGenerator.StrategyEntry | src/utils/sitemapGenerator.js:79-84 | the entry is dated today or by a day the strategy's `updatedAt`, or else `createdAt`, converts to; the URL's last segment is the id when it has no slash |
| SitemapGenerator.BlogEntry | src/utils/sitemapGenerator.js:87-92 | the entry is dated today or by a day the first set date of the post converts to; the URL's last segment is the slug when it has no slash |
| StrategyJsonPage.Updated | src/pages/StrategyJsonPage.jsx:20 | the `updated` date is `lastUpdated` when set, else the day of the `updatedAt` timestamp, else today; never empty |
| StrategyJsonPage.HowItWorks | src/pages/StrategyJsonPage.jsx:28-30 | a text step is kept; an object step gives its truthy `description`, else the object itself |
| StrategyJsonPage.RiskLabel | src/pages/StrategyJsonPage.jsx:31-33 | a text risk is kept; an object risk gives its `type`, else its `description`, else `Risk` |
| StrategyJsonPage.MapSteps | src/pages/StrategyJsonPage.jsx:28-30 | one `how_it_works` item per step, in order |
| StrategyJsonPage.MapRisks | src/pages/StrategyJsonPage.jsx:31-33 | one `risks` item per risk, in order |
| StrategyJsonPage.FeeFraction | src/pages/StrategyJsonPage.jsx:24 | no fee gives 0.0025; a fee gives its percentage over 100, or `NaN` (null in JSON) when it does not parse |
| StrategyJsonPage.Fixed | src/pages/StrategyJsonPage.jsx:17-38 | the document always has the eleven keys other than `title` and `summary` |
| StrategyJsonPage.Transform | src/pages/StrategyJsonPage.jsx:17-38 | the document's keys are those eleven plus `title` or `summary` exactly when the name or description is defined (`JSON.stringify` drops undefined) |
| StrategyJsonPage.FeesText | src/pages/StrategyJsonPage.jsx:34 | the sentence starts `Forge fee = ` and names the strategy's fee, or 0.25% when it has none |
| StrategyJsonPage.FindStrategy | src/pages/StrategyJsonPage.jsx:13 | finds a strategy whose id is the slug, and finds none only when no strategy has that id |
| StrategyJsonPage.FindsFirstMatch | src/pages/StrategyJsonPage.jsx:13 | the strategy found is the first with that id |
| StrategyJsonPage.Page | src/pages/StrategyJsonPage.jsx:52-83 | nothing while loading, then the error document, then the not-found document with the slug, else the transformed strategy |
| StrategyJsonPage.TransformMembers | src/pages/StrategyJsonPage.jsx:17-38 | the value of every member of the document in terms of the strategy |
| StrategyJsonPage.FixedScalars | src/pages/StrategyJsonPage.jsx:18-37 | slug, source URL, updated date, fee sentence and the `numbers` object |
| StrategyJsonPage.FixedLists | src/pages/StrategyJsonPage.jsx:26-36 | the six list members, each the strategy's own value when truthy, else `[]` |
| StrategyJsonPage.ListsPreserved | src/pages/StrategyJsonPage.jsx:26-36 | steps and risks keep their count, and array-valued chains, protocols, faq and changelog are passed through unchanged |
| AiSitemapPage.Entry | src/pages/AiSitemapPage.jsx:11-15 | an entry has the document URL `…/ai/<id>.json`, the same `updated` date as the strategy document, and the name as `title` when defined |
| AiSitemapPage.DocumentUrl | src/pages/AiSitemapPage.jsx:13 | the last path segment of the document URL is `<id>.json` when the id has no slash |
| AiSitemapPage.Catalog | src/pages/AiSitemapPage.jsx:11-15 | one entry per strategy, in order |
| AiSitemapPage.Page | src/pages/AiSitemapPage.jsx:28-56 | nothing while loading, then the error document, else the catalog |
| AiSitemapPage.EmptyCatalog | src/pages/AiSitemapPage.jsx:43-48 | with no strategies the page is the empty array |
| JsonEndpointChecks.SlugFromUrl | src/utils/testJsonEndpoints.js:15 | the slug is the URL's last segment, shortened only by a removed `.json`; a segment without `.json` is the slug itself |
| JsonEndpointChecks.MissingFields | src/utils/testJsonEndpoints.js:23-29 | every field reported is one of the thirteen required fields and is absent from the document |
| JsonEndpointChecks.ApyFormatOk | src/utils/testJsonEndpoints.js:38 | the check passes only when `numbers` is an object holding `apy_typical`; a `numbers` that is not an object fails |
| JsonEndpointChecks.NonArrayFields | src/utils/testJsonEndpoints.js:45-52 | a field is reported exactly when it is one of the six list fields and its value is not an array |
| JsonEndpointChecks.ProductMissing | src/utils/testJsonEndpoints.js:71-79 | only Product schemas are checked, and a field is reported exactly when it is `name` or `description` and is falsy |
| JsonEndpointChecks.MissingFieldsEmptyIff | src/utils/testJsonEndpoints.js:23-35 | no field is reported missing exactly when all thirteen required fields are present |
| JsonEndpointChecks.FirstJsonSuffix | src/utils/testJsonEndpoints.js:15 | in `<id>.json` the first `.json` is the suffix when the id has none |
| JsonEndpointChecks.StripJsonSuffix | src/utils/testJsonEndpoints.js:15 | removing the first `.json` from `<id>.json` gives back the id |
| JsonEndpointChecks.SlugRoundTrip | src/utils/testJsonEndpoints.js:15 | the slug the check extracts from a catalog URL is the strategy id it was built from |
| JsonEndpointChecks.ArraysOkWhen | src/utils/testJsonEndpoints.js:45-52 | when all six list fields are arrays nothing is reported |
| JsonEndpointChecks.MissingOfMembers | src/utils/testJsonEndpoints.js:23-29 | with every field but `title` and `summary` present, exactly the absent ones of those two are reported, in order |
| JsonEndpointChecks.DocumentMissing | src/utils/testJsonEndpoints.js:23-29 | a strategy document misses `title` exactly when the name is undefined and `summary` exactly when the description is |
| JsonEndpointChecks.DocumentApyOk | src/utils/testJsonEndpoints.js:38-42 | every strategy document passes the APY format check |
| JsonEndpointChecks.DocumentArraysOk | src/utils/testJsonEndpoints.js:45-52 | a strategy whose list fields are absent or arrays yields a document that passes the array check |
| JsonEndpointChecks.AllButSlugMissing | src/utils/testJsonEndpoints.js:23-29 | a document holding only a slug misses the twelve other fields, in order |
| JsonEndpointChecks.NotFoundMissing | src/utils/testJsonEndpoints.js:23-29 | the not-found document misses all twelve fields other than `slug` |
| StrategiesPage.MatchesSearch | src/pages/StrategiesPage.jsx:195-200 | an empty term matches every strategy, as `includes('')` does |
| StrategiesPage.Select | src/pages/StrategiesPage.jsx:192-211 | keeps exactly the strategies that pass every active filter, never more than given |
| StrategiesPage.Comparator | src/pages/StrategiesPage.jsx:214-228 | for every key, swapping the two strategies negates the comparison (a `NaN` risk difference reads as 0 both ways) |
| StrategiesPage.SelectIsOneFilter | src/pages/StrategiesPage.jsx:192-211 | the three chained filters keep exactly the strategies matching search, risk and category together, in order |
| StrategiesPage.SelectNothing | src/pages/StrategiesPage.jsx:192-211 | with no search term and `all` everywhere nothing is removed |
| StrategiesPage.RiskRank | src/pages/StrategiesPage.jsx:221-222 | only `Low`, `Medium` and `High` have a rank, from 1 to 3 |
| StrategiesPage.ApyDescending | src/pages/StrategiesPage.jsx:214-217 | sorting by `apy` lists higher APY first |
| StrategiesPage.TvlDescending | src/pages/StrategiesPage.jsx:214-219 | sorting by `tvl` lists higher TVL first |
| StrategiesPage.RiskAscending | src/pages/StrategiesPage.jsx:220-222 | sorting by `risk` lists lower risk first when every risk is ranked |
| StrategiesPage.NameAscending | src/pages/StrategiesPage.jsx:223-224 | sorting by `name` lists names in ascending order |
| StrategiesPage.OtherKeyKeepsOrder | src/pages/StrategiesPage.jsx:225-226 | an unknown sort key leaves the order unchanged |
| StrategiesPage.ListingIsFilteredPermutation | src/pages/StrategiesPage.jsx:191-231 | the listing is a permutation of the filtered strategies |
| StrategiesPage.RiskColor | src/pages/StrategiesPage.jsx:233-240 | each of low, medium and high (any case) gets its own colour, and exactly those |
| StrategiesPage.RiskColorIgnoresCase | src/pages/StrategiesPage.jsx:233-234 | the colour does not depend on the case of the risk |
| StrategiesPage.Sections | src/pages/StrategiesPage.jsx:434-495 | the featured section appears exactly when a shown strategy is featured and holds exactly those, in shown order; the grid shows all, or "No strategies found" when none |
| StrategiesPage.FeaturedAlsoInAll | src/pages/StrategiesPage.jsx:434-477 | every featured card also appears in the full grid |
| StrategiesPage.StrategiesView.constructor | src/pages/StrategiesPage.jsx:181-231 | both states are the data array; the screen shows the data in its given order while the mount effect sorts the array by APY in place without a new render |
| StrategiesPage.StrategiesView.Refresh | src/pages/StrategiesPage.jsx:191-231 | the filtered state is the filtered, sorted strategies, the strategies array itself sorted in place when no filter is active; the screen changes only when the filtered state is a different array |
| StrategiesPage.StrategiesView.SetSearchTerm | src/pages/StrategiesPage.jsx:184-231 | the same term changes nothing; a new term refilters and the screen shows the result |
| StrategiesPage.StrategiesView.SetRisk | src/pages/StrategiesPage.jsx:185-231 | the same risk changes nothing; a new risk refilters and the screen shows the result |
| StrategiesPage.StrategiesView.SetCategory | src/pages/StrategiesPage.jsx:186-231 | the same category changes nothing; a new category refilters and the screen shows the result |
| StrategiesPage.StrategiesView.SetSortBy | src/pages/StrategiesPage.jsx:187-231 | a new key re-sorts; with a filter active the screen shows the new order, with none it keeps the previous order |
| StrategiesPage.StrategiesView.ClearFilters | src/pages/StrategiesPage.jsx:483-491 | from the "No strategies found" panel: resets search, risk and category but not the sort key; when a filter was active every strategy is shown, sorted, else nothing changes |
| StrategiesPage.StrategiesView.View | src/pages/StrategiesPage.jsx:434-495 | the grid shows exactly the list on screen, and "No strategies found" exactly when it is empty |
| BlogPage.CategoriesOf | src/pages/BlogPage.jsx:394 | one category per post, in order |
| BlogPage.Categories | src/pages/BlogPage.jsx:394 | `all` first, then every category a post has, each once, in order of first appearance |
| BlogPage.AllTags | src/pages/BlogPage.jsx:395 | every post's tags are in the flattened list, with their multiplicity |
| BlogPage.AllTagsMember | src/pages/BlogPage.jsx:395 | a tag is in the flattened tag list exactly when some post carries it |
| BlogPage.UniqueTags | src/pages/BlogPage.jsx:395-396 | `all` first, then the distinct tags |
| BlogPage.UniqueTagsMembers | src/pages/BlogPage.jsx:395-396 | a tag is offered exactly when some post carries it, and none twice |
| BlogPage.MatchesSearch | src/pages/BlogPage.jsx:407-414 | an empty term matches every post |
| BlogPage.Select | src/pages/BlogPage.jsx:405-425 | keeps exactly the posts that pass every active filter, never more than given |
| BlogPage.NewestFirst | src/pages/BlogPage.jsx:428 | negative exactly when the first post is newer, zero on equal dates, and zero whenever a date does not parse |
| BlogPage.SelectIsOneFilter | src/pages/BlogPage.jsx:405-425 | the chained filters keep exactly the posts matching search, category and tag together, in order |
| BlogPage.SelectNothing | src/pages/BlogPage.jsx:405-425 | with no term and `all` everywhere nothing is removed |
| BlogPage.UntaggedExcluded | src/pages/BlogPage.jsx:423-425 | a post without tags is never shown under a tag filter |
| BlogPage.SortedIsNewestFirst | src/pages/BlogPage.jsx:428 | a list sorted by the comparator with parseable dates is newest first |
| BlogPage.SortedNewestFirst | src/pages/BlogPage.jsx:428 | with parseable publication dates the listing is newest first |
| BlogPage.UnparsedDatesKeepOrder | src/pages/BlogPage.jsx:428 | when no date parses the comparator is `NaN`, read as 0, and the order is unchanged |
| BlogPage.ListingIsFilteredPermutation | src/pages/BlogPage.jsx:405-430 | the listing is a permutation of the filtered posts |
| BlogPage.Sections | src/pages/BlogPage.jsx:592-652 | featured section exactly when a shown post is featured; the latest grid is a skeleton while loading, else the non-featured posts, else "No articles found" |
| BlogPage.SplitIsPartition | src/pages/BlogPage.jsx:599-631 | featured and latest sections together are a permutation of the shown posts |
| BlogPage.BlogView.constructor | src/pages/BlogPage.jsx:388-391 | starts with no posts, nothing shown, empty search and `all` filters |
| BlogPage.BlogView.Refresh | src/pages/BlogPage.jsx:399-431 | no posts shows nothing; otherwise the filtered posts newest first, the state array itself sorted when no filter is active |
| BlogPage.BlogView.Receive | src/pages/BlogPage.jsx:399-431 | new posts from the store replace the old, the listing is recomputed and, being a different array, rendered |
| BlogPage.BlogView.SetSearchTerm | src/pages/BlogPage.jsx:389-431 | the same term changes nothing; a new one refilters into a different array, which is rendered |
| BlogPage.BlogView.SetCategory | src/pages/BlogPage.jsx:390-431 | the same category changes nothing; a new one refilters into a different array, which is rendered |
| BlogPage.BlogView.SetTag | src/pages/BlogPage.jsx:391-431 | the same tag changes nothing; a new one refilters into a different array, which is rendered |
| BlogPage.BlogView.ClearFilters | src/pages/BlogPage.jsx:636-647 | from the "No articles found" panel: resets all three filters; when one was active every post is shown, newest first, else nothing changes |
| BlogPage.BlogView.View | src/pages/BlogPage.jsx:592-652 | placeholders while loading, then "No articles found" exactly when nothing is shown; featured posts are shown ones |
| BlogDetailPage.Selected | src/pages/BlogDetailPage.jsx:14-19 | once posts have arrived the shown post is the first with the slug, or none; before that the previous one stays |
| BlogDetailPage.SelectsFirstMatch | src/pages/BlogDetailPage.jsx:16 | the post shown is the first whose slug matches |
| BlogDetailPage.FormatDate | src/pages/BlogDetailPage.jsx:72-89 | falsy gives "Unknown date", a timestamp its day, text its parse or "Invalid Date" |
| BlogDetailPage.ArticleOf | src/pages/BlogDetailPage.jsx:92-260 | author, read time and category fall back to `Forge Team`, 5 and `General`; content else excerpt; tags only when non-empty; share text names the title |
| BlogDetailPage.ArticleDate | src/pages/BlogDetailPage.jsx:137 | the date shown is the publication date, else the creation date, and is unknown exactly when neither is set |
| BlogDetailPage.Page | src/pages/BlogDetailPage.jsx:21-70 | the skeleton while loading, then the error, then "Article Not Found" without a post, else the article |
| BlogDetailPage.UnknownSlugNotFound | src/pages/BlogDetailPage.jsx:14-70 | once posts have arrived and none has the slug the page says "Article Not Found" |
| SeoHead.FullTitle | src/components/SEOHead.jsx:14 | a given title gets the site suffix; otherwise the default title |
| SeoHead.FullDescription | src/components/SEOHead.jsx:15 | a given description is used; otherwise the default one |
| SeoHead.FullKeywords | src/components/SEOHead.jsx:16 | the keyword text always starts with the base keywords |
| SeoHead.KeywordsAppend | src/components/SEOHead.jsx:16 | the keyword list is the eight base keywords joined, followed by the page's own keywords when there are any |
| SeoHead.Robots | src/components/SEOHead.jsx:27-28 | `noindex, nofollow` exactly when `noIndex`, else `index, follow` |
| SeoHead.SeoHead | src/components/SEOHead.jsx:4-64 | the head tags: title, description, keywords, robots and googlebot agree, canonical only when given, page URL the canonical else the location, image only when given |
| SeoHead.PostImage | src/components/SEOHead.jsx:91 | the post image is prefixed with the site, else the default image |
| SeoHead.PostKeywords | src/components/SEOHead.jsx:92 | the keywords text is never empty |
| SeoHead.PostKeywordsDefault | src/components/SEOHead.jsx:92 | no tags, an empty tag list or a list holding one empty tag (the joins that are empty) give the default keywords; otherwise the tags joined |
| SeoHead.PostingOf | src/components/SEOHead.jsx:68-95 | the posting data has the post page address, image, keywords and word count |
| SeoHead.BlogPostProps | src/components/SEOHead.jsx:97-107 | the article head takes title, excerpt, tags, post address, image, type `article` and the posting data |
| SeoHead.PostAddressesAgree | src/components/SEOHead.jsx:67-108 | canonical link, page URL and the posting's page id are the same address |
| SeoHead.Listed | src/components/SEOHead.jsx:126-136 | the blog data lists the first ten posts, in order |
| SeoHead.ListedIgnoresTail | src/components/SEOHead.jsx:126 | posts after the tenth do not change the blog data |
| SeoHead.BlogListingProps | src/components/SEOHead.jsx:111-148 | the listing head has the blog title, address and the blog data of the posts |
| AdminPage.StrategyPayloadOf | src/pages/AdminPage.jsx:59-71 | the payload is the form with numbers parsed, performance zeroed and `readTime` `NaN` |
| AdminPage.Appended | src/pages/AdminPage.jsx:164-172 | a non-blank staged entry is appended trimmed; a blank one changes nothing |
| AdminPage.AppendedShape | src/pages/AdminPage.jsx:164-172 | the list is unchanged or grows by one non-empty entry without surrounding blanks |
| AdminPage.RemoveUndoesAdd | src/pages/AdminPage.jsx:164-179 | removing an entry just added restores the list when it was not already there |
| AdminPage.Admin.constructor | src/pages/AdminPage.jsx:15-53 | both forms start at their initial values, staging inputs empty, not loading |
| AdminPage.Admin.Stage | src/pages/AdminPage.jsx:50-53 | typing changes only the staging input it belongs to |
| AdminPage.Admin.AddTag | src/pages/AdminPage.jsx:133-148 | appends the trimmed tag to the strategy or blog form and clears the input, only when non-blank |
| AdminPage.Admin.RemoveTag | src/pages/AdminPage.jsx:150-162 | removes every copy of the tag from the chosen form |
| AdminPage.Admin.AddProtocol | src/pages/AdminPage.jsx:164-172 | appends the trimmed protocol and clears the input, only when non-blank |
| AdminPage.Admin.RemoveProtocol | src/pages/AdminPage.jsx:174-179 | removes every copy of the protocol |
| AdminPage.Admin.AddChain | src/pages/AdminPage.jsx:181-189 | appends the trimmed chain and clears the input, only when non-blank |
| AdminPage.Admin.RemoveChain | src/pages/AdminPage.jsx:191-196 | removes every copy of the chain |
| AdminPage.Admin.AddStep | src/pages/AdminPage.jsx:198-206 | appends the trimmed step and clears the input, only when non-blank |
| AdminPage.Admin.RemoveStep | src/pages/AdminPage.jsx:208-213 | removes every copy of the step |
| AdminPage.Admin.SubmitStrategy | src/pages/AdminPage.jsx:55-98 | sends the parsed payload, resets the form only on success, and always ends not loading |
| AdminPage.Admin.SubmitBlog | src/pages/AdminPage.jsx:100-131 | sends the form with `readTime` parsed and the two clock readings, resets only on success, ends not loading |
| Store.WithId | src/lib/strategiesService.js:44-47 | the returned record has the document's fields plus `id`, which a stored `id` field overrides |
| Store.Spread | src/lib/strategiesService.js:21-26 | spread keeps every field and the later fields win |
| Store.Resolved | src/lib/strategiesService.js:23-24 | the store replaces each `serverTimestamp()` sentinel by the write time and keeps the rest |
| Store.CompareValues | src/lib/strategiesService.js:40 | values of different types are ordered by type rank; the result is -1, 0 or 1 |
| Store.CompareValuesAntisymmetric | src/lib/strategiesService.js:40 | swapping the operands negates the comparison |
| Store.CompareValuesTransitive | src/lib/strategiesService.js:40 | the value order is transitive |
| Store.Newer | src/lib/strategiesService.js:38-41 | two rows tie only when they have equal `createdAt` and the same id |
| Store.NewerAntisymmetric | src/lib/strategiesService.js:38-41 | swapping the rows negates the query order |
| Store.NewerTransitive | src/lib/strategiesService.js:38-41 | the query order is transitive |
| Store.Rendered | src/lib/strategiesService.js:44-47 | one record per row, each the row's data with its id |
| Store.Query | src/lib/strategiesService.js:38-47 | returns the records of exactly the selected documents having `createdAt`, each once, newest first |
| Store.OrderedAnswer | src/lib/strategiesService.js:38-47 | sorting the selected documents by the query order gives an answer |
| Store.AnswerUnique | src/lib/strategiesService.js:38-47 | a query has only one answer |
| Store.StrictlyOrderedUnique | src/lib/strategiesService.js:38-47 | two strictly ordered lists with the same elements are equal |
| Store.PermutedAnswer | src/lib/strategiesService.js:38-47 | any permutation of a complete selection is still complete and drawn from the store |
| Store.FirstIsNewest | src/lib/strategiesService.js:40 | the head of a strictly ordered list precedes every other element |
| StrategiesService.Stamped | src/lib/strategiesService.js:21-26 | a new strategy gets both timestamps as sentinels and status `active`; its other fields are kept |
| StrategiesService.UpdateStamped | src/lib/strategiesService.js:73-76 | an update gets `updatedAt` as a sentinel and keeps its other fields |
| StrategiesService.CreatedRecord | src/lib/strategiesService.js:21-28 | the stored strategy is active, created and updated at the write time |
| StrategiesService.Strategies.Create | src/lib/strategiesService.js:19-34 | on success stores the stamped strategy under a fresh id and returns it with its id; a refused write changes nothing |
| StrategiesService.Strategies.GetAll | src/lib/strategiesService.js:36-52 | all strategies having `createdAt`, newest first |
| StrategiesService.Strategies.GetById | src/lib/strategiesService.js:54-68 | the strategy with its id, or "Strategy not found" |
| StrategiesService.Strategies.Update | src/lib/strategiesService.js:70-84 | merges the stamped update into an existing strategy and returns the update with its id; a missing id is an error and changes nothing |
| StrategiesService.Strategies.Delete | src/lib/strategiesService.js:86-95 | removes the id (missing or not) and returns true |
| StrategiesService.Strategies.ByCategory | src/lib/strategiesService.js:97-114 | the strategies whose `category` equals the argument, newest first |
| StrategiesService.Strategies.ByUser | src/lib/strategiesService.js:116-133 | the strategies whose `userId` equals the argument, newest first |
| StrategiesService.CreatedIsListed | src/lib/strategiesService.js:19-52 | a created strategy is in the full listing, with status `active` |
| StrategiesService.UpdatedRecord | src/lib/strategiesService.js:70-84 | after an update each field is the updated value (sentinels resolved), `updatedAt` is the write time, and untouched fields keep their value |
| StrategiesService.ByCategoryExact | src/lib/strategiesService.js:97-114 | a dated strategy is listed under a category exactly when its category equals it |
| BlogService.Stamped | src/lib/blogService.js:21-28 | a new post gets both timestamps as sentinels, status `published` and zero views and likes; its other fields are kept |
| BlogService.UpdateStamped | src/lib/blogService.js:76-79 | an update gets `updatedAt` as a sentinel and keeps its other fields |
| BlogService.Counted | src/lib/blogService.js:145-146 | a missing or falsy counter becomes 1, a number is incremented, a non-empty string gets "1" appended |
| BlogService.Bumped | src/lib/blogService.js:139-151 | only the counter field changes, to its counted value |
| BlogService.Repeat | src/lib/blogService.js:139-151 | after at least one increment the counter field exists |
| BlogService.CreatedRecord | src/lib/blogService.js:21-30 | the stored post is published, dated at the write time, with zero views and likes |
| BlogService.ViewsCount | src/lib/blogService.js:139-151 | n view increments on a new post leave exactly n views |
| BlogService.Blog.Create | src/lib/blogService.js:19-36 | on success stores the stamped post under a fresh id and returns it with its id; a refused write changes nothing |
| BlogService.Blog.GetAll | src/lib/blogService.js:38-55 | the posts whose status is `published`, newest first |
| BlogService.Blog.GetById | src/lib/blogService.js:57-71 | the post with its id, or "Blog post not found" |
| BlogService.Blog.Update | src/lib/blogService.js:73-87 | merges the stamped update into an existing post; a missing id is an error and changes nothing |
| BlogService.Blog.Delete | src/lib/blogService.js:89-98 | removes the id and returns true |
| BlogService.Blog.ByCategory | src/lib/blogService.js:100-118 | the published posts of the category, newest first |
| BlogService.Blog.ByAuthor | src/lib/blogService.js:120-137 | the posts of the author, drafts included, newest first |
| BlogService.Blog.IncrementViews | src/lib/blogService.js:139-151 | bumps `views` of an existing post; a missing post or a refused call changes nothing |
| BlogService.Blog.Like | src/lib/blogService.js:153-165 | bumps `likes` of an existing post; a missing post or a refused call changes nothing |
| BlogService.Blog.Increment | src/lib/blogService.js:139-165 | the shared read-then-write counter update of views and likes |
| BlogService.ListingIsPublished | src/lib/blogService.js:38-55 | a dated post is in the blog listing exactly when its status is `published` |
| BlogService.DraftListedForAuthor | src/lib/blogService.js:120-126 | an unpublished post is listed for its author but not in the blog listing |
| BlogService.CategoryWithinListing | src/lib/blogService.js:100-107 | every post listed under a category is published and has that category |
| Sorting.InsertionSort | src/pages/StrategiesPage.jsx:214-228 | sorts the array in place to the stable sort of its contents |
| Sorting.InsertAt | src/pages/StrategiesPage.jsx:214-228 | inserts one element into the sorted prefix and leaves the rest alone |
| Sorting.SortPermutes | src/pages/StrategiesPage.jsx:214-228 | sorting is a permutation |
| Sorting.SortSorts | src/pages/StrategiesPage.jsx:214-228 | with a total, transitive comparator the result is sorted |
| Sorting.SortKeepsOrder | src/pages/StrategiesPage.jsx:225-226 | a comparator that never says "after" leaves the order unchanged |
| Sorting.InsertLastMultiset | src/pages/StrategiesPage.jsx:214-228 | inserting an element adds exactly it |
| Sorting.InsertLastSorted | src/pages/StrategiesPage.jsx:214-228 | inserting into a sorted list keeps it sorted |
| Text.ToLower | src/pages/StrategiesPage.jsx:197 | each character is lower-cased, the length kept |
| Text.ToLowerIdempotent | src/pages/StrategiesPage.jsx:234 | lower-casing twice is lower-casing once |
| Text.Compare | src/pages/StrategiesPage.jsx:224 | the name order is -1, 0 or 1 and 0 exactly on equal names |
| Text.CompareAntisymmetric | src/pages/StrategiesPage.jsx:224 | swapping names negates the comparison |
| Text.CompareTransitive | src/pages/StrategiesPage.jsx:224 | the name order is transitive |
| Text.IndexFrom | src/utils/testJsonEndpoints.js:15 | finds the first occurrence at or after a position, and none only when there is none |
| Text.ContainsIff | src/pages/StrategiesPage.jsx:197 | `includes` holds exactly when the pattern occurs somewhere |
| Text.LastSegment | src/utils/testJsonEndpoints.js:15 | the last segment is the slash-free suffix |
| Text.LastSegmentAfterSlash | src/utils/testJsonEndpoints.js:15 | the last segment of a path ending in `/` followed by a slash-free name is that name |
| Text.Trim | src/pages/AdminPage.jsx:134 | the trimmed text has no surrounding blanks and is empty exactly when the input is all blanks |
| Text.TrimInfix | src/pages/AdminPage.jsx:134 | the trimmed text is the input with only blanks removed around it |
| Text.JoinAppend | src/components/SEOHead.jsx:16 | joining two non-empty lists is joining each with a separator between |
| Text.Interpolate | src/pages/BlogDetailPage.jsx:92 | a template literal shows a missing value as `undefined` |
| Seqs.Filter | src/pages/StrategiesPage.jsx:196-211 | keeps exactly the elements satisfying the predicate |
| Seqs.FilterChain | src/pages/StrategiesPage.jsx:192-211 | three optional filters in a row equal one filter by their conjunction |
| Seqs.Partition | src/pages/BlogPage.jsx:599-631 | filtering by a predicate and by its negation splits the list |
| Seqs.Without | src/pages/AdminPage.jsx:154 | removing a value removes every copy |
| Seqs.WithoutCounts | src/pages/AdminPage.jsx:154 | removal leaves every other value's count unchanged |
| Seqs.WithoutAbsent | src/pages/AdminPage.jsx:154 | removing an absent value changes nothing |
| Seqs.Distinct | src/pages/BlogPage.jsx:396 | the distinct list has the same members and no duplicates |
| Seqs.DistinctFirstOccurrenceOrder | src/pages/BlogPage.jsx:396 | a `Set` keeps values in first-occurrence order |
| Seqs.Find | src/pages/StrategyJsonPage.jsx:13 | finds the first matching element, or none when none matches |
| Stamps.Or | src/utils/sitemapGenerator.js:81 | the logical-or of two timestamps is the first when truthy, else the second |
| Stamps.TimestampDay | src/pages/StrategyJsonPage.jsx:20 | only a Firestore timestamp has a day, its own |
| JsonValues.OrElse | src/pages/StrategyJsonPage.jsx:26-27 | a truthy value is kept, anything else gives the fallback |
| JsonValues.Optional | src/pages/StrategyJsonPage.jsx:19-21 | a defined value adds the key; an undefined one leaves the object unchanged |

## Left out

- Network, Firestore transport, `console`, `alert`, `window` and
  `document.contentType` are left out. Store failures are a `fault`
  parameter, and the id `addDoc` chooses is a parameter that is not yet in
  the collection.
- The clock is a parameter: `currentDate`, `today`, the write time `now`,
  and the two ISO texts of a blog submit.
- Date parsing and ISO conversion are not computed. A date value carries
  the outcome of its parse (an instant and its UTC day, or none), and
  calendar arithmetic is not modelled.
- `toLocaleDateString` and `formatTVL` formatting are left out. A formatted
  date is the day it stands for.
- Floating point is left out. `apy` and `tvl` are integers, and
  `parseFloat`/`parseInt` results are uninterpreted numbers or `NaN`.
- `null` and `undefined` are not told apart. Both are an absent value.
- React rendering, Helmet, the markup and its classes are left out. Only
  what each page shows is modelled, and a render is a step of the methods
  that change state.
- The admin tab switch and the per-field `onChange` edits of the two forms
  are left out. They assign one form field each.
- The strategies page's loading skeleton is left out. Its `isLoading` is
  the constant `false`.
- `validateSchemaMarkup` logs the HowTo and FAQ schema checks and
  `validateSectionIds` looks up DOM ids. Both are left out; they only log.
- Text.ToLower: lower-cases ASCII letters only, because Unicode case
  mapping is not modelled.
- Text.Compare: orders character by character (Unicode scalar values), not
  by the locale collation of `localeCompare`.
- Store.CompareValues: compares lists and maps as equal among themselves.
  Element-wise ordering of such `createdAt` values is not modelled.
- Store.Newer: breaks `createdAt` ties by document id descending, compared
  character by character (Unicode scalar values) rather than by UTF-8 bytes.
- Store.Resolved: resolves top-level `serverTimestamp()` sentinels only.
  Nested sentinels and dotted update paths are not modelled.
- AdminPage.Admin.SubmitBlog: does not claim the two clock readings are
  equal, because the code reads the clock twice.
- BlogService.Counted: numbers are integers, so `NaN` and fractional
  counters are not modelled.
- SeoHead.PostingOf: `wordCount` is the number of characters (Unicode
  scalar values) of the content. JavaScript's `length` counts UTF-16 code
  units, so content outside the Basic Multilingual Plane gives a smaller
  count here.
- BlogPage.MatchesSearch: a post without a title, excerpt or author is read
  as having an empty one. The page instead throws a `TypeError` when a
  search term is set, and the listing fails.
- BlogPage.BlogView.Refresh: promises the model's stable insertion order.
  When some publication dates parse and others do not, the comparator is
  inconsistent (`NaN` reads as 0). ECMAScript then leaves the sort order
  implementation-defined, so a browser may show another permutation of the
  same posts. With all dates parseable, or none, the order is the one stated.
- BlogPage.BlogView.ClearFilters: the same holds for the newest-first order
  it promises.
- StrategiesPage.StrategiesView.Refresh: promises the model's stable
  insertion order. Sorting by `risk` with a risk outside Low, Medium and
  High makes the comparator inconsistent, and the browser's order may then
  differ.
- BlogService.Blog.IncrementViews: the read and the write are one step here.
  In the service they are two separate calls. Two concurrent increments can
  both read the same count and lose one update.
- BlogService.Blog.Like: the same lost update can happen between concurrent
  likes.
- BlogService.Blog.Increment: reads and writes the counter as one atomic
  step, which the service does not do.
