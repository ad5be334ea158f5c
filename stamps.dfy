/** Timestamp-like field values as the pages receive them from the store or
    from hand-written data. Calendar arithmetic is not modelled: an
    `Instant` carries its epoch milliseconds together with the UTC calendar
    day (`YYYY-MM-DD`) that `toISOString().split('T')[0]` would give, and a
    value that the page hands to the `Date` constructor carries the outcome
    of that parse (`None` for an invalid date). */
module Stamps {
  import opened Wrappers

  /** A calendar day in `YYYY-MM-DD` form. */
  type Day = s: string | |s| > 0 witness "1970-01-01"

  datatype Instant = Instant(ms: int, day: Day)

  datatype Stamp =
    | Undefined
      /** A store `Timestamp`: it has a `toDate` method that always succeeds. */
    | Timestamp(at: Instant)
      /** A `Date` object, `None` when it is an invalid date. */
    | DateObject(parsed: Option<Instant>)
      /** A string, with what `new Date(text)` makes of it. */
    | DateText(text: string, parsed: Option<Instant>)
      /** A number of epoch milliseconds, with what `new Date(ms)` makes of it. */
    | EpochMillis(millis: int, parsed: Option<Instant>)
      /** Any other value: its truthiness and what `new Date(v)` makes of it. */
    | OtherValue(truthy: bool, parsed: Option<Instant>)

  /** JavaScript truthiness of the value. */
  predicate Truthy(t: Stamp) {
    match t
    case Undefined => false
    case DateText(text, _) => text != ""
    case EpochMillis(ms, _) => ms != 0
    case OtherValue(truthy, _) => truthy
    case _ => true
  }

  /** `a || b`. */
  function Or(a: Stamp, b: Stamp): (r: Stamp)
    ensures Truthy(a) ==> r == a
    ensures !Truthy(a) ==> r == b
  {
    if Truthy(a) then a else b
  }

  /** `new Date(t)` for a value that is not a store timestamp; a store
      timestamp handed to the constructor gives an invalid date too. */
  function AsDate(t: Stamp): (r: Option<Instant>)
    ensures t.Undefined? || t.Timestamp? ==> r.None?
  {
    match t
    case Undefined => None
    case Timestamp(_) => None
    case DateObject(p) => p
    case DateText(_, p) => p
    case EpochMillis(_, p) => p
    case OtherValue(_, p) => p
  }

  /** `t?.toDate?.()?.toISOString().split('T')[0]`: only a store timestamp has
      a `toDate` method. */
  function TimestampDay(t: Stamp): (r: Option<Day>)
    ensures r.Some? <==> t.Timestamp?
    ensures t.Timestamp? ==> r == Some(t.at.day)
  {
    match t
    case Timestamp(at) => Some(at.day)
    case _ => None
  }
}
