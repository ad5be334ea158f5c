/** The strategies collection. Each operation is one store call; a call the
    store refuses (network, permissions) is given as `fault`, and the
    operation then fails with that message and changes nothing. The time of
    a write and the id the store gives a new document are parameters. */
module StrategiesService {
  import opened Wrappers
  import opened Store

  const NotFound := "Strategy not found"

  /** `{ ...data, createdAt, updatedAt, status: 'active' }`: the caller's own
      `createdAt`, `updatedAt` or `status` is overridden. */
  function Stamped(data: Doc): (r: Doc)
    ensures r.Keys == data.Keys + {"createdAt", "updatedAt", "status"}
    ensures r["createdAt"] == ServerTime && r["updatedAt"] == ServerTime && r["status"] == Str("active")
    ensures forall k :: k in data && k != "createdAt" && k != "updatedAt" && k != "status" ==> r[k] == data[k]
  {
    Spread(data, map["createdAt" := ServerTime, "updatedAt" := ServerTime, "status" := Str("active")])
  }

  /** `{ ...updateData, updatedAt }`. */
  function UpdateStamped(update: Doc): (r: Doc)
    ensures r.Keys == update.Keys + {"updatedAt"}
    ensures r["updatedAt"] == ServerTime
    ensures forall k :: k in update && k != "updatedAt" ==> r[k] == update[k]
  {
    Spread(update, map["updatedAt" := ServerTime])
  }

  /** A created strategy, as stored, is active, carries the time of the
      write as both its creation and its update time, and has no field
      besides the caller's and these three (no counters). */
  lemma CreatedRecord(data: Doc, now: int)
    ensures var d := Resolved(Stamped(data), now);
      d["status"] == Str("active") && d["createdAt"] == Time(now) && d["updatedAt"] == Time(now)
      && d.Keys == data.Keys + {"createdAt", "updatedAt", "status"}
  {
  }

  class Strategies {
    var docs: map<string, Doc>

    constructor (initial: map<string, Doc>)
      ensures docs == initial
    {
      docs := initial;
    }

    /** `createStrategy`: stores the stamped record under a new id and
        returns it with its id; the returned timestamps are still the
        sentinels. */
    method Create(data: Doc, newId: string, now: int, fault: Option<string>) returns (r: Result<Doc, string>)
      requires newId !in docs
      modifies this
      ensures fault.Some? ==> r == Err(fault.value) && docs == old(docs)
      ensures fault.None? ==> r == Ok(WithId(newId, Stamped(data)))
      ensures fault.None? ==> docs == old(docs)[newId := Resolved(Stamped(data), now)]
    {
      if fault.Some? {
        return Err(fault.value);
      }
      var record := Stamped(data);
      docs := docs[newId := Resolved(record, now)];
      r := Ok(WithId(newId, record));
    }

    /** `getAllStrategies`: every strategy with a creation time, newest
        first, whatever its status. */
    method GetAll(fault: Option<string>) returns (r: Result<seq<Doc>, string>, ghost rows: seq<Row>)
      ensures fault.Some? ==> r == Err(fault.value)
      ensures fault.None? ==> Answers(docs, Everything(), rows) && r == Ok(Rendered(rows))
    {
      if fault.Some? {
        return Err(fault.value), [];
      }
      var found;
      found, rows := Query(docs, Everything());
      r := Ok(found);
    }

    /** `getStrategyById`. */
    method GetById(id: string, fault: Option<string>) returns (r: Result<Doc, string>)
      ensures fault.Some? ==> r == Err(fault.value)
      ensures fault.None? && id in docs ==> r == Ok(WithId(id, docs[id]))
      ensures fault.None? && id !in docs ==> r == Err(NotFound)
    {
      if fault.Some? {
        return Err(fault.value);
      }
      if id in docs {
        r := Ok(WithId(id, docs[id]));
      } else {
        r := Err(NotFound);
      }
    }

    /** `updateStrategy`: merges the update and a new update time into the
        stored record and returns only the id and what was sent. */
    method Update(id: string, update: Doc, now: int, fault: Option<string>) returns (r: Result<Doc, string>)
      modifies this
      ensures fault.Some? ==> r == Err(fault.value) && docs == old(docs)
      ensures fault.None? && id !in old(docs) ==> r == Err(NoDocument) && docs == old(docs)
      ensures fault.None? && id in old(docs) ==>
        r == Ok(WithId(id, UpdateStamped(update)))
        && docs == old(docs)[id := Spread(old(docs)[id], Resolved(UpdateStamped(update), now))]
    {
      if fault.Some? {
        return Err(fault.value);
      }
      if id !in docs {
        return Err(NoDocument);
      }
      var sent := UpdateStamped(update);
      docs := docs[id := Spread(docs[id], Resolved(sent, now))];
      r := Ok(WithId(id, sent));
    }

    /** `deleteStrategy`: removing an id that is not there succeeds too. */
    method Delete(id: string, fault: Option<string>) returns (r: Result<bool, string>)
      modifies this
      ensures fault.Some? ==> r == Err(fault.value) && docs == old(docs)
      ensures fault.None? ==> r == Ok(true) && docs == old(docs) - {id}
    {
      if fault.Some? {
        return Err(fault.value);
      }
      docs := docs - {id};
      r := Ok(true);
    }

    /** `getStrategiesByCategory`. */
    method ByCategory(category: Value, fault: Option<string>) returns (r: Result<seq<Doc>, string>, ghost rows: seq<Row>)
      ensures fault.Some? ==> r == Err(fault.value)
      ensures fault.None? ==> Answers(docs, FieldIs("category", category), rows) && r == Ok(Rendered(rows))
    {
      if fault.Some? {
        return Err(fault.value), [];
      }
      var found;
      found, rows := Query(docs, FieldIs("category", category));
      r := Ok(found);
    }

    /** `getStrategiesByUser`. */
    method ByUser(userId: Value, fault: Option<string>) returns (r: Result<seq<Doc>, string>, ghost rows: seq<Row>)
      ensures fault.Some? ==> r == Err(fault.value)
      ensures fault.None? ==> Answers(docs, FieldIs("userId", userId), rows) && r == Ok(Rendered(rows))
    {
      if fault.Some? {
        return Err(fault.value), [];
      }
      var found;
      found, rows := Query(docs, FieldIs("userId", userId));
      r := Ok(found);
    }
  }

  // ------------------------------------------------------------- across calls

  /** A strategy just created is in the listing, whatever its status. */
  lemma CreatedIsListed(docs: map<string, Doc>, data: Doc, newId: string, now: int, rows: seq<Row>)
    requires Answers(docs[newId := Resolved(Stamped(data), now)], Everything(), rows)
    ensures exists i :: 0 <= i < |rows| && rows[i].id == newId && rows[i].data["status"] == Str("active")
  {
    var d := docs[newId := Resolved(Stamped(data), now)];
    assert Selects(Everything(), d[newId]);
  }

  /** Reading a strategy back after an update gives the old fields the
      update did not name, the update's fields, and the new update time. */
  lemma UpdatedRecord(stored: Doc, update: Doc, now: int, k: string)
    requires k in stored || k in update || k == "updatedAt"
    ensures var d := Spread(stored, Resolved(UpdateStamped(update), now));
      k in d
      && (k == "updatedAt" ==> d[k] == Time(now))
      && (k != "updatedAt" && k in update ==> d[k] == (if update[k] == ServerTime then Time(now) else update[k]))
      && (k != "updatedAt" && k !in update ==> d[k] == stored[k])
  {
  }

  /** Only documents with the category asked for are listed by category,
      and all of them are. */
  lemma ByCategoryExact(docs: map<string, Doc>, category: Value, rows: seq<Row>, id: string)
    requires Answers(docs, FieldIs("category", category), rows)
    requires id in docs && "createdAt" in docs[id]
    ensures (exists i :: 0 <= i < |rows| && rows[i].id == id) <==>
      "category" in docs[id] && docs[id]["category"] == category
  {
    if exists i :: 0 <= i < |rows| && rows[i].id == id {
      var i :| 0 <= i < |rows| && rows[i].id == id;
      assert Selects(FieldIs("category", category), rows[i].data);
    }
  }
}
