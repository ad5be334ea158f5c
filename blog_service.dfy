/** The blog posts collection, over the same store as the strategies. A
    call the store refuses is given as `fault`; the operations that return a
    value then fail with its message and change nothing, and the two counter
    updates swallow it. */
module BlogService {
  import opened Wrappers
  import opened Store

  const NotFound := "Blog post not found"
  const Published := Str("published")

  /** `{ ...data, createdAt, updatedAt, status: 'published', views: 0,
      likes: 0 }`: the caller's own values for these five are overridden. */
  function Stamped(data: Doc): (r: Doc)
    ensures r.Keys == data.Keys + {"createdAt", "updatedAt", "status", "views", "likes"}
    ensures r["createdAt"] == ServerTime && r["updatedAt"] == ServerTime && r["status"] == Published
    ensures r["views"] == Num(0) && r["likes"] == Num(0)
    ensures forall k :: k in data && k != "createdAt" && k != "updatedAt" && k != "status" && k != "views" && k != "likes" ==>
      r[k] == data[k]
  {
    Spread(data, map["createdAt" := ServerTime, "updatedAt" := ServerTime, "status" := Published,
                     "views" := Num(0), "likes" := Num(0)])
  }

  /** `{ ...updateData, updatedAt }`. */
  function UpdateStamped(update: Doc): (r: Doc)
    ensures r.Keys == update.Keys + {"updatedAt"}
    ensures r["updatedAt"] == ServerTime
    ensures forall k :: k in update && k != "updatedAt" ==> r[k] == update[k]
  {
    Spread(update, map["updatedAt" := ServerTime])
  }

  /** `(current || 0) + 1` for a counter field that may be absent: a falsy
      value counts as 0, a number goes up by one, `true` is 1 + 1, and any
      other value is turned into text with "1" appended. */
  function Counted(current: Option<Value>): (r: Value)
    ensures current.None? || !Truthy(current.value) ==> r == Num(1)
    ensures current.Some? && current.value.Num? ==> r == Num(current.value.n + 1)
    ensures current.Some? && current.value.Str? && current.value.s != "" ==> r == Str(current.value.s + "1")
  {
    match current
    case None => Num(1)
    case Some(v) =>
      match v
      case Null => Num(1)
      case Bool(b) => if b then Num(2) else Num(1)
      case Num(n) => Num(n + 1)
      case Str(s) => if s == "" then Num(1) else Str(s + "1")
      case _ => Str(ObjectText(v) + "1")
  }

  /** The field of a stored document, if present. */
  function Field(d: Doc, name: string): Option<Value> {
    if name in d then Some(d[name]) else None
  }

  /** The document after a counter update: only the counter changes. */
  function Bumped(d: Doc, counter: string): (r: Doc)
    ensures r.Keys == d.Keys + {counter}
    ensures r[counter] == Counted(Field(d, counter))
    ensures forall k :: k in d && k != counter ==> r[k] == d[k]
  {
    d[counter := Counted(Field(d, counter))]
  }

  /** A new post, as stored, is published with no views and no likes. */
  lemma CreatedRecord(data: Doc, now: int)
    ensures var d := Resolved(Stamped(data), now);
      d["status"] == Published && d["createdAt"] == Time(now) && d["updatedAt"] == Time(now)
      && d["views"] == Num(0) && d["likes"] == Num(0)
  {
  }

  /** Counting from a new post: the n-th view recorded leaves `views` at n. */
  lemma {:induction false} ViewsCount(d: Doc, n: nat)
    requires "views" in d && d["views"] == Num(0)
    ensures Repeat(d, "views", n)["views"] == Num(n)
  {
    if n > 0 {
      ViewsCount(d, n - 1);
    }
  }

  /** `n` counter updates in a row. */
  function Repeat(d: Doc, counter: string, n: nat): (r: Doc)
    ensures counter in r || n == 0
  {
    if n == 0 then d else Bumped(Repeat(d, counter, n - 1), counter)
  }

  class Blog {
    var docs: map<string, Doc>

    constructor (initial: map<string, Doc>)
      ensures docs == initial
    {
      docs := initial;
    }

    /** `createBlogPost`. */
    method Create(data: Doc, newId: string, now: int, fault: Option<string>) returns (r: Result<Doc, string>)
      requires newId !in docs
      modifies this
      ensures fault.Some? ==> r == Err(fault.value) && docs == old(docs)
      ensures fault.None? ==> r == Ok(WithId(newId, Stamped(data)))
      ensures fault.None? ==> docs == old(docs)[newId := Resolved(Stamped(data), now)]
    {
      if fault.Some? {
        return Err(fault.value);
      }
      var record := Stamped(data);
      docs := docs[newId := Resolved(record, now)];
      r := Ok(WithId(newId, record));
    }

    /** `getAllBlogPosts`: the published posts, newest first. */
    method GetAll(fault: Option<string>) returns (r: Result<seq<Doc>, string>, ghost rows: seq<Row>)
      ensures fault.Some? ==> r == Err(fault.value)
      ensures fault.None? ==> Answers(docs, FieldIs("status", Published), rows) && r == Ok(Rendered(rows))
    {
      if fault.Some? {
        return Err(fault.value), [];
      }
      var found;
      found, rows := Query(docs, FieldIs("status", Published));
      r := Ok(found);
    }

    /** `getBlogPostById`: any post, published or not. */
    method GetById(id: string, fault: Option<string>) returns (r: Result<Doc, string>)
      ensures fault.Some? ==> r == Err(fault.value)
      ensures fault.None? && id in docs ==> r == Ok(WithId(id, docs[id]))
      ensures fault.None? && id !in docs ==> r == Err(NotFound)
    {
      if fault.Some? {
        return Err(fault.value);
      }
      if id in docs {
        r := Ok(WithId(id, docs[id]));
      } else {
        r := Err(NotFound);
      }
    }

    /** `updateBlogPost`. */
    method Update(id: string, update: Doc, now: int, fault: Option<string>) returns (r: Result<Doc, string>)
      modifies this
      ensures fault.Some? ==> r == Err(fault.value) && docs == old(docs)
      ensures fault.None? && id !in old(docs) ==> r == Err(NoDocument) && docs == old(docs)
      ensures fault.None? && id in old(docs) ==>
        r == Ok(WithId(id, UpdateStamped(update)))
        && docs == old(docs)[id := Spread(old(docs)[id], Resolved(UpdateStamped(update), now))]
    {
      if fault.Some? {
        return Err(fault.value);
      }
      if id !in docs {
        return Err(NoDocument);
      }
      var sent := UpdateStamped(update);
      docs := docs[id := Spread(docs[id], Resolved(sent, now))];
      r := Ok(WithId(id, sent));
    }

    /** `deleteBlogPost`. */
    method Delete(id: string, fault: Option<string>) returns (r: Result<bool, string>)
      modifies this
      ensures fault.Some? ==> r == Err(fault.value) && docs == old(docs)
      ensures fault.None? ==> r == Ok(true) && docs == old(docs) - {id}
    {
      if fault.Some? {
        return Err(fault.value);
      }
      docs := docs - {id};
      r := Ok(true);
    }

    /** `getBlogPostsByCategory`: the category and published status both. */
    method ByCategory(category: Value, fault: Option<string>) returns (r: Result<seq<Doc>, string>, ghost rows: seq<Row>)
      ensures fault.Some? ==> r == Err(fault.value)
      ensures fault.None? ==> Answers(docs, InCategory(category), rows) && r == Ok(Rendered(rows))
    {
      if fault.Some? {
        return Err(fault.value), [];
      }
      var found;
      found, rows := Query(docs, InCategory(category));
      r := Ok(found);
    }

    /** `getBlogPostsByAuthor`: every post of the author, drafts included. */
    method ByAuthor(authorId: Value, fault: Option<string>) returns (r: Result<seq<Doc>, string>, ghost rows: seq<Row>)
      ensures fault.Some? ==> r == Err(fault.value)
      ensures fault.None? ==> Answers(docs, FieldIs("authorId", authorId), rows) && r == Ok(Rendered(rows))
    {
      if fault.Some? {
        return Err(fault.value), [];
      }
      var found;
      found, rows := Query(docs, FieldIs("authorId", authorId));
      r := Ok(found);
    }

    /** `incrementViews`: a read, then a write of the counter alone. A
        missing post or a refused call leaves everything as it was. */
    method IncrementViews(id: string, fault: Option<string>)
      modifies this
      ensures fault.None? && id in old(docs) ==> docs == old(docs)[id := Bumped(old(docs)[id], "views")]
      ensures fault.Some? || id !in old(docs) ==> docs == old(docs)
    {
      Increment(id, "views", fault);
    }

    /** `likeBlogPost`: the same for `likes`. */
    method Like(id: string, fault: Option<string>)
      modifies this
      ensures fault.None? && id in old(docs) ==> docs == old(docs)[id := Bumped(old(docs)[id], "likes")]
      ensures fault.Some? || id !in old(docs) ==> docs == old(docs)
    {
      Increment(id, "likes", fault);
    }

    method Increment(id: string, counter: string, fault: Option<string>)
      modifies this
      ensures fault.None? && id in old(docs) ==> docs == old(docs)[id := Bumped(old(docs)[id], counter)]
      ensures fault.Some? || id !in old(docs) ==> docs == old(docs)
    {
      if fault.None? && id in docs {
        var current := Field(docs[id], counter);
        docs := docs[id := docs[id][counter := Counted(current)]];
      }
    }
  }

  /** `where('category', '==', c)` and `where('status', '==', 'published')`. */
  function InCategory(category: Value): Doc -> bool {
    d => FieldIs("category", category)(d) && FieldIs("status", Published)(d)
  }

  // ------------------------------------------------------------- across calls

  /** The listing holds exactly the published posts. */
  lemma ListingIsPublished(docs: map<string, Doc>, rows: seq<Row>, id: string)
    requires Answers(docs, FieldIs("status", Published), rows)
    requires id in docs && "createdAt" in docs[id]
    ensures (exists i :: 0 <= i < |rows| && rows[i].id == id) <==>
      "status" in docs[id] && docs[id]["status"] == Published
  {
    if exists i :: 0 <= i < |rows| && rows[i].id == id {
      var i :| 0 <= i < |rows| && rows[i].id == id;
      assert Selects(FieldIs("status", Published), rows[i].data);
    }
  }

  /** An author's unpublished post is in the author's list and not in the
      listing. */
  lemma DraftListedForAuthor(docs: map<string, Doc>, byAuthor: seq<Row>, listing: seq<Row>, authorId: Value, id: string)
    requires Answers(docs, FieldIs("authorId", authorId), byAuthor)
    requires Answers(docs, FieldIs("status", Published), listing)
    requires id in docs && "createdAt" in docs[id] && "authorId" in docs[id] && docs[id]["authorId"] == authorId
    requires "status" in docs[id] && docs[id]["status"] != Published
    ensures exists i :: 0 <= i < |byAuthor| && byAuthor[i].id == id
    ensures forall i :: 0 <= i < |listing| ==> listing[i].id != id
  {
    assert Selects(FieldIs("authorId", authorId), docs[id]);
    forall i | 0 <= i < |listing| ensures listing[i].id != id {
      assert Selects(FieldIs("status", Published), listing[i].data);
    }
  }

  /** The category listing is the part of the listing in that category. */
  lemma CategoryWithinListing(docs: map<string, Doc>, rows: seq<Row>, category: Value)
    requires Answers(docs, InCategory(category), rows)
    ensures forall i :: 0 <= i < |rows| ==>
      Field(rows[i].data, "status") == Some(Published) && Field(rows[i].data, "category") == Some(category)
  {
    forall i | 0 <= i < |rows|
      ensures Field(rows[i].data, "status") == Some(Published) && Field(rows[i].data, "category") == Some(category)
    {
      assert Selects(InCategory(category), rows[i].data);
      assert FieldIs("category", category)(rows[i].data) && FieldIs("status", Published)(rows[i].data);
    }
  }
}
