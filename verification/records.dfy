/**
 The batch record as the dashboard receives it (`HerbBatch` in
 src/services/ayurchain.ts). The wire type is loose: any field may be
 missing, and the two history fields are untyped, so every field is
 optional here and the history fields distinguish arrays from anything else.
 */
module Records {
  import opened Wrappers

  /** A calendar month as `Date.prototype.getMonth` returns it: 0 is January. */
  type Month = m: int | 0 <= m < 12

  /**
   A timestamp string together with the month that parsing it yields in the
   viewer's time zone; `month` is `None` when the string is an Invalid Date.
   */
  datatype Stamp = Stamp(text: string, month: Option<Month>)

  /** One custody or processing event; every part of it is optional. */
  datatype Event = Event(actor: Option<string>, timestamp: Option<string>, note: Option<string>)

  /** An untyped history field: an array of events, or any other value (absent, null, a scalar, an object). */
  datatype Log = NotArray | Array(entries: seq<Event>)

  datatype BatchRecord = BatchRecord(
    batchId: Option<string>,
    species: Option<string>,
    farmerId: Option<string>,
    cultivationLocation: Option<string>,
    harvestDate: Option<Stamp>,
    currentOwner: Option<string>,
    ownerHistory: Log,
    processingSteps: Log,
    createdAt: Option<Stamp>,
    updatedAt: Option<Stamp>)

  /** JavaScript truthiness of a string field: present and non-empty. */
  predicate Truthy(s: Option<string>)
  {
    s.Some? && |s.value| > 0
  }

  /** JavaScript truthiness of a timestamp field. */
  predicate StampTruthy(s: Option<Stamp>)
  {
    s.Some? && |s.value.text| > 0
  }

  /** `Array.isArray(x) && x.length > 0`. */
  predicate NonEmptyArray(l: Log)
  {
    l.Array? && |l.entries| > 0
  }
}
