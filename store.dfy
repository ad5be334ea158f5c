/** The document store behind the two content services, as the services use
    it: a collection is a map from document id to document; a write may carry
    the server-timestamp sentinel, which the store replaces by the time of the
    write; a query keeps the documents that satisfy its equality filters and
    have the field it orders by, newest `createdAt` first, ties broken by
    document id in the same direction. */
module Store {
  import opened Wrappers
  import opened Text
  import opened Seqs
  import opened Sorting

  /** A field value. `Num` stands for every number (fractions are not
      modelled); `Time` is a stored timestamp in epoch milliseconds;
      `ServerTime` is the sentinel a write carries in place of the time. */
  datatype Value =
    | Null
    | Bool(b: bool)
    | Num(n: int)
    | Str(s: string)
    | Time(ms: int)
    | List(items: seq<Value>)
    | Object(fields: map<string, Value>)
    | ServerTime

  type Doc = map<string, Value>

  /** A document of a query result together with its id. */
  datatype Row = Row(id: string, data: Doc)

  /** `{ id, ...data }`: a field named "id" in the data wins over the id. */
  function WithId(id: string, data: Doc): (r: Doc)
    ensures r.Keys == data.Keys + {"id"}
    ensures forall k :: k in data ==> r[k] == data[k]
    ensures "id" !in data ==> r["id"] == Str(id)
  {
    map["id" := Str(id)] + data
  }

  /** `{ ...d, ...fields }`: every field of `fields` replaces or adds to `d`. */
  function Spread(d: Doc, fields: Doc): (r: Doc)
    ensures r.Keys == d.Keys + fields.Keys
    ensures forall k :: k in fields ==> r[k] == fields[k]
    ensures forall k :: k in d && k !in fields ==> r[k] == d[k]
  {
    d + fields
  }

  /** The document as stored: each top-level sentinel becomes the time of
      the write. */
  function Resolved(d: Doc, now: int): (r: Doc)
    ensures r.Keys == d.Keys
    ensures forall k :: k in d && d[k] == ServerTime ==> r[k] == Time(now)
    ensures forall k :: k in d && d[k] != ServerTime ==> r[k] == d[k]
    ensures forall k :: k in r ==> r[k] != ServerTime
  {
    map k | k in d :: if d[k] == ServerTime then Time(now) else d[k]
  }

  /** The message `updateDoc` fails with when the document does not exist
      (the store adds the document's path to it). */
  const NoDocument := "No document to update"

  // ------------------------------------------------------------- text

  /** The earliest second a stored timestamp can hold (year 1). */
  const MinSeconds := -62135596800

  /** The whole seconds and the nanoseconds of a time in milliseconds. */
  function Seconds(ms: int): int {
    ms / 1000
  }

  function Nanos(ms: int): nat {
    (ms % 1000) * 1000000
  }

  /** `String(v)` as an array's `join` writes an element: null as "". */
  function ElementText(v: Value): string {
    match v
    case Null => ""
    case Bool(b) => if b then "true" else "false"
    case Num(n) => IntText(n)
    case Str(s) => s
    case Time(ms) => "Timestamp(seconds=" + IntText(Seconds(ms)) + ", nanoseconds=" + IntText(Nanos(ms)) + ")"
    case List(items) => Join(seq(|items|, i requires 0 <= i < |items| => ElementText(items[i])), ",")
    case Object(_) => "[object Object]"
    case ServerTime => "[object Object]"
  }

  /** The text `v + "..."` starts with for a value that is an object: a
      stored timestamp converts through `valueOf`, its seconds shifted to be
      non-negative and both parts padded with zeros; an array through
      `join`; any other object is "[object Object]". */
  function ObjectText(v: Value): string
    requires v.Time? || v.List? || v.Object? || v.ServerTime?
  {
    if v.Time? then PadStart(IntText(Seconds(v.ms) - MinSeconds), 12, '0') + "." + PadStart(IntText(Nanos(v.ms)), 9, '0')
    else ElementText(v)
  }

  /** JavaScript truthiness of a field value. */
  predicate Truthy(v: Value) {
    match v
    case Null => false
    case Bool(b) => b
    case Num(n) => n != 0
    case Str(s) => s != ""
    case _ => true
  }

  // ------------------------------------------------------------- ordering

  /** The order of value types: null, booleans, numbers, timestamps,
      strings, arrays, maps; the sentinel is never stored and comes last. */
  function TypeRank(v: Value): nat {
    match v
    case Null => 0
    case Bool(_) => 1
    case Num(_) => 2
    case Time(_) => 3
    case Str(_) => 4
    case List(_) => 5
    case Object(_) => 6
    case ServerTime => 7
  }

  function Sign(n: int): int {
    if n < 0 then -1 else if n > 0 then 1 else 0
  }

  /** Ascending order of two field values. Arrays are not compared element
      by element nor maps key by key: two of them are equal here. */
  function CompareValues(a: Value, b: Value): (r: int)
    ensures -1 <= r <= 1
    ensures TypeRank(a) < TypeRank(b) ==> r == -1
    ensures TypeRank(a) > TypeRank(b) ==> r == 1
  {
    if TypeRank(a) != TypeRank(b) then Sign(TypeRank(a) - TypeRank(b))
    else match (a, b)
      case (Bool(x), Bool(y)) => if x == y then 0 else if y then -1 else 1
      case (Num(x), Num(y)) => Sign(x - y)
      case (Time(x), Time(y)) => Sign(x - y)
      case (Str(x), Str(y)) => Compare(x, y)
      case _ => 0
  }

  lemma CompareValuesAntisymmetric(a: Value, b: Value)
    ensures CompareValues(b, a) == -CompareValues(a, b)
  {
    if a.Str? && b.Str? {
      CompareAntisymmetric(a.s, b.s);
    }
  }

  lemma CompareValuesTransitive(a: Value, b: Value, c: Value)
    requires CompareValues(a, b) <= 0 && CompareValues(b, c) <= 0
    ensures CompareValues(a, c) <= 0
  {
    if a.Str? && b.Str? && c.Str? {
      CompareTransitive(a.s, b.s, c.s);
    }
  }

  /** The `createdAt` field of a row, `Null` when absent. */
  function CreatedAt(x: Row): Value {
    if "createdAt" in x.data then x.data["createdAt"] else Null
  }

  /** `orderBy('createdAt', 'desc')` as a comparator: a row sorts before
      another (negative result) when its `createdAt` is greater, or equal and
      its id greater. */
  function Newer(x: Row, y: Row): (r: int)
    ensures r == 0 <==> CompareValues(CreatedAt(x), CreatedAt(y)) == 0 && x.id == y.id
  {
    var c := CompareValues(CreatedAt(y), CreatedAt(x));
    CompareValuesAntisymmetric(CreatedAt(y), CreatedAt(x));
    if c != 0 then c else Compare(y.id, x.id)
  }

  lemma NewerAntisymmetric(x: Row, y: Row)
    ensures Newer(y, x) == -Newer(x, y)
  {
    CompareValuesAntisymmetric(CreatedAt(x), CreatedAt(y));
    CompareAntisymmetric(x.id, y.id);
  }

  lemma NewerTransitive(x: Row, y: Row, z: Row)
    requires Newer(x, y) <= 0 && Newer(y, z) <= 0
    ensures Newer(x, z) <= 0
  {
    var vx, vy, vz := CreatedAt(x), CreatedAt(y), CreatedAt(z);
    CompareValuesAntisymmetric(vy, vx);
    CompareValuesAntisymmetric(vz, vy);
    CompareValuesAntisymmetric(vz, vx);
    assert CompareValues(vz, vy) <= 0 && CompareValues(vy, vx) <= 0;
    CompareValuesTransitive(vz, vy, vx);
    if CompareValues(vz, vx) == 0 {
      CompareValuesTransitive(vx, vz, vy);
      CompareValuesTransitive(vy, vx, vz);
      CompareTransitive(z.id, y.id, x.id);
    }
  }

  // ------------------------------------------------------------- queries

  /** A query's filter and ordering field together: documents without
      `createdAt` are not in a result ordered by it. */
  predicate Selects(p: Doc -> bool, d: Doc) {
    "createdAt" in d && p(d)
  }

  /** `where(field, '==', v)`. */
  function FieldIs(field: string, v: Value): Doc -> bool {
    d => field in d && d[field] == v
  }

  function Everything(): Doc -> bool {
    d => true
  }

  /** `rows` is the answer to the query `p` ordered by `createdAt`
      descending: exactly the selected documents, each once, in order. */
  ghost predicate Answers(docs: map<string, Doc>, p: Doc -> bool, rows: seq<Row>) {
    FromStore(docs, p, rows) && Complete(docs, p, rows) && StrictlyNewer(rows)
  }

  /** `docs.map(doc => ({ id: doc.id, ...doc.data() }))`. */
  function Rendered(rows: seq<Row>): (r: seq<Doc>)
    ensures |r| == |rows|
    ensures forall i :: 0 <= i < |rows| ==> r[i] == WithId(rows[i].id, rows[i].data)
  {
    seq(|rows|, i requires 0 <= i < |rows| => WithId(rows[i].id, rows[i].data))
  }

  /** Runs a query: collects the selected documents, then orders them. */
  method Query(docs: map<string, Doc>, p: Doc -> bool) returns (r: seq<Doc>, ghost rows: seq<Row>)
    ensures Answers(docs, p, rows)
    ensures r == Rendered(rows)
  {
    var keys := docs.Keys;
    var found: seq<Row> := [];
    while keys != {}
      invariant keys <= docs.Keys
      invariant forall i :: 0 <= i < |found| ==>
        found[i].id in docs && found[i].id !in keys && found[i].data == docs[found[i].id] && Selects(p, found[i].data)
      invariant forall id :: id in docs && id !in keys && Selects(p, docs[id]) ==>
        exists i :: 0 <= i < |found| && found[i].id == id
      invariant NoDuplicates(found)
      decreases |keys|
    {
      var k :| k in keys;
      if Selects(p, docs[k]) {
        ghost var before := found;
        found := found + [Row(k, docs[k])];
        assert forall i :: 0 <= i < |before| ==> found[i] == before[i];
        assert found[|before|].id == k;
      }
      keys := keys - {k};
    }
    var sorted := SortSeq(found, Newer);
    OrderedAnswer(docs, p, found);
    rows := sorted;
    r := Rendered(sorted);
  }

  /** Each row is the stored document of its id and is selected. */
  ghost predicate FromStore(docs: map<string, Doc>, p: Doc -> bool, rows: seq<Row>) {
    forall i :: 0 <= i < |rows| ==>
      rows[i].id in docs && rows[i].data == docs[rows[i].id] && Selects(p, rows[i].data)
  }

  /** Every selected document has a row. */
  ghost predicate Complete(docs: map<string, Doc>, p: Doc -> bool, rows: seq<Row>) {
    forall id :: id in docs && Selects(p, docs[id]) ==> exists i :: 0 <= i < |rows| && rows[i].id == id
  }

  ghost predicate StrictlyNewer(rows: seq<Row>) {
    forall i, j :: 0 <= i < j < |rows| ==> Newer(rows[i], rows[j]) < 0
  }

  /** `Newer` is a total preorder on any rows. */
  lemma NewerPreorder(u: seq<Row>)
    ensures Total(u, Newer) && Transitive(u, Newer)
  {
    forall x, y | x in u && y in u ensures Newer(x, y) <= 0 || Newer(y, x) <= 0 {
      NewerAntisymmetric(x, y);
    }
    forall x, y, z | x in u && y in u && z in u && Newer(x, y) <= 0 && Newer(y, z) <= 0
      ensures Newer(x, z) <= 0
    {
      NewerTransitive(x, y, z);
    }
  }

  /** Sorted without repeated ids is strictly ordered. */
  lemma SortedStrict(s: seq<Row>)
    requires Sorted(s, Newer)
    requires forall i, j :: 0 <= i < j < |s| ==> s[i].id != s[j].id
    ensures StrictlyNewer(s)
  {
    forall i, j | 0 <= i < j < |s| ensures Newer(s[i], s[j]) < 0 {
      assert Newer(s[i], s[j]) <= 0 && s[i].id != s[j].id;
    }
  }

  /** Distinct rows taken from the store have distinct ids. */
  lemma DistinctIds(docs: map<string, Doc>, p: Doc -> bool, s: seq<Row>)
    requires FromStore(docs, p, s) && NoDuplicates(s)
    ensures forall i, j :: 0 <= i < j < |s| ==> s[i].id != s[j].id
  {
    forall i, j | 0 <= i < j < |s| ensures s[i].id != s[j].id {
      assert s[i] != s[j];
      assert s[i] == Row(s[i].id, docs[s[i].id]) && s[j] == Row(s[j].id, docs[s[j].id]);
    }
  }

  /** Reordering keeps rows from the store and keeps the result complete. */
  lemma PermutedAnswer(docs: map<string, Doc>, p: Doc -> bool, found: seq<Row>, s: seq<Row>)
    requires FromStore(docs, p, found) && Complete(docs, p, found)
    requires multiset(s) == multiset(found)
    ensures FromStore(docs, p, s) && Complete(docs, p, s)
  {
    forall i | 0 <= i < |s|
      ensures s[i].id in docs && s[i].data == docs[s[i].id] && Selects(p, s[i].data)
    {
      assert s[i] in multiset(found);
    }
    forall id | id in docs && Selects(p, docs[id]) ensures exists i :: 0 <= i < |s| && s[i].id == id {
      var k :| 0 <= k < |found| && found[k].id == id;
      assert found[k] in multiset(s);
    }
  }

  /** Sorting the collected documents gives the answer. */
  lemma OrderedAnswer(docs: map<string, Doc>, p: Doc -> bool, found: seq<Row>)
    requires FromStore(docs, p, found) && Complete(docs, p, found) && NoDuplicates(found)
    ensures Answers(docs, p, SortSeq(found, Newer))
  {
    var s := SortSeq(found, Newer);
    SortPermutes(found, Newer);
    PermutationNoDuplicates(found, s);
    PermutedAnswer(docs, p, found, s);
    NewerPreorder(found);
    SortSorts(found, Newer, found);
    DistinctIds(docs, p, s);
    SortedStrict(s);
  }

  /** A query has one answer: whatever order the store visits the documents
      in, the result is the same. */
  lemma AnswerUnique(docs: map<string, Doc>, p: Doc -> bool, a: seq<Row>, b: seq<Row>)
    requires Answers(docs, p, a) && Answers(docs, p, b)
    ensures a == b
  {
    forall x ensures x in a <==> x in b {
      if x in a {
        var i :| 0 <= i < |a| && a[i] == x;
        var j :| 0 <= j < |b| && b[j].id == x.id;
      }
      if x in b {
        var i :| 0 <= i < |b| && b[i] == x;
        var j :| 0 <= j < |a| && a[j].id == x.id;
      }
    }
    StrictlyOrderedUnique(a, b);
  }

  /** The first row of a strictly ordered sequence is newer than the rest. */
  lemma FirstIsNewest(s: seq<Row>, x: Row)
    requires StrictlyNewer(s) && |s| > 0 && x in s[1..]
    ensures Newer(s[0], x) < 0 && x != s[0]
  {
    var i :| 1 <= i < |s| && s[i] == x;
  }

  lemma SameElementsNonEmpty(a: seq<Row>, b: seq<Row>)
    requires forall x :: x in a <==> x in b
    ensures |a| > 0 <==> |b| > 0
  {
    if |a| > 0 {
      assert a[0] in b;
    }
    if |b| > 0 {
      assert b[0] in a;
    }
  }

  /** Two sequences strictly ordered by `Newer` with the same elements are
      the same sequence. */
  lemma {:induction false} StrictlyOrderedUnique(a: seq<Row>, b: seq<Row>)
    requires forall x :: x in a <==> x in b
    requires StrictlyNewer(a) && StrictlyNewer(b)
    ensures a == b
  {
    SameElementsNonEmpty(a, b);
    if |a| > 0 {
      SameFirst(a, b);
      SameRest(a, b);
      RestStrictlyNewer(a);
      RestStrictlyNewer(b);
      StrictlyOrderedUnique(a[1..], b[1..]);
      assert a == [a[0]] + a[1..] && b == [b[0]] + b[1..];
    }
  }

  lemma InRest(s: seq<Row>, x: Row)
    requires x in s && |s| > 0 && x != s[0]
    ensures x in s[1..]
  {
    var m :| 0 <= m < |s| && s[m] == x;
    assert s[1..][m - 1] == x;
  }

  /** Strictly ordered sequences with the same elements start alike. */
  lemma SameFirst(a: seq<Row>, b: seq<Row>)
    requires forall x :: x in a <==> x in b
    requires StrictlyNewer(a) && StrictlyNewer(b) && |a| > 0 && |b| > 0
    ensures a[0] == b[0]
  {
    if a[0] != b[0] {
      assert a[0] in b && b[0] in a;
      InRest(b, a[0]);
      InRest(a, b[0]);
      FirstIsNewest(b, a[0]);
      FirstIsNewest(a, b[0]);
      NewerAntisymmetric(a[0], b[0]);
    }
  }

  lemma SameRest(a: seq<Row>, b: seq<Row>)
    requires forall x :: x in a <==> x in b
    requires StrictlyNewer(a) && StrictlyNewer(b) && |a| > 0 && |b| > 0 && a[0] == b[0]
    ensures forall x :: x in a[1..] <==> x in b[1..]
  {
    forall x ensures x in a[1..] <==> x in b[1..] {
      if x in a[1..] {
        FirstIsNewest(a, x);
        assert x in b;
        InRest(b, x);
      }
      if x in b[1..] {
        FirstIsNewest(b, x);
        assert x in a;
        InRest(a, x);
      }
    }
  }

  lemma RestStrictlyNewer(a: seq<Row>)
    requires StrictlyNewer(a) && |a| > 0
    ensures StrictlyNewer(a[1..])
  {
    forall i, j | 0 <= i < j < |a[1..]| ensures Newer(a[1..][i], a[1..][j]) < 0 {
      assert a[1..][i] == a[i + 1] && a[1..][j] == a[j + 1];
    }
  }
}
