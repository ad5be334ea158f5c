/** Strategy and blog post documents as the pages read them, after the store
    has added each document's `id`. A field the pages combine with `||` is
    kept with its falsy cases: an empty string or 0 stands for an absent
    value wherever the two behave alike, and `Option` is used where they do
    not (a missing `name` is left out of a JSON document, a missing `slug`
    renders as "undefined"). A post's title, excerpt and author are plain
    strings: the blog search reads them without a guard. */
module Records {
  import opened Wrappers
  import opened Stamps
  import opened JsonValues

  /** An entry of a strategy's `steps`: plain text or an object. */
  datatype Step = StepText(text: string) | StepObject(fields: map<string, Json>)

  /** An entry of a strategy's `risks`: plain text or an object. */
  datatype RiskItem = RiskText(text: string) | RiskObject(fields: map<string, Json>)

  datatype Strategy = Strategy(
    id: string,
    name: Option<string>,
    description: Option<string>,
    lastUpdated: string,
    updatedAt: Stamp,
    createdAt: Stamp,
    apy: int,
    fee: string,
    /** What `parseFloat` makes of `fee` without its first "%": `None` is `NaN`. */
    feePercent: Option<real>,
    chains: Option<Json>,
    protocols: Option<Json>,
    steps: Option<seq<Step>>,
    risks: Option<seq<RiskItem>>,
    faq: Option<Json>,
    changelog: Option<Json>)

  datatype Post = Post(
    id: string,
    slug: Option<string>,
    title: string,
    excerpt: string,
    author: string,
    category: Option<string>,
    tags: Option<seq<string>>,
    featured: bool,
    publishedAt: Stamp,
    updatedAt: Stamp,
    createdAt: Stamp,
    readTime: int,
    content: string,
    imageUrl: string)
}
