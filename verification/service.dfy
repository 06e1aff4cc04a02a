/**
 The outcomes of the two data-access calls of src/services/ayurchain.ts
 (lines 16-27). The HTTP exchange itself is a parameter: either the request
 failed before a response arrived, or a response with a status and a decoded body.
 */
module Service {
  import opened Records

  datatype Transport<T> = NetworkError | Response(status: int, body: T)

  /** `Response.ok`: a status in the range 200-299. */
  predicate Ok(status: int) { 200 <= status <= 299 }

  /** Outcome of fetching the whole list. */
  datatype FetchResult = Fetched(records: seq<BatchRecord>) | FetchFailed

  /** Outcome of fetching one batch by id. */
  datatype Lookup = Found(batch: BatchRecord) | NotFound | LookupFailed

  /** `fetchBatches`: the list on a 2xx response; a thrown error otherwise. */
  function FetchBatches(t: Transport<seq<BatchRecord>>): (r: FetchResult)
    ensures r.Fetched? <==> t.Response? && Ok(t.status)
    ensures r.Fetched? ==> r.records == t.body
  {
    if t.Response? && Ok(t.status) then Fetched(t.body) else FetchFailed
  }

  /**
   `fetchBatchById`: `null` (NotFound) on 404, a thrown error on any other
   non-2xx status or a transport failure, the record otherwise. Not-found and
   failure are distinct outcomes.
   */
  function FetchBatchById(t: Transport<BatchRecord>): (r: Lookup)
    ensures r.NotFound? <==> t.Response? && t.status == 404
    ensures r.LookupFailed? <==> t.NetworkError? || (t.status != 404 && !Ok(t.status))
    ensures r.Found? <==> t.Response? && Ok(t.status)
    ensures r.Found? ==> r.batch == t.body
  {
    match t
    case NetworkError => LookupFailed
    case Response(status, body) =>
      if status == 404 then NotFound
      else if !Ok(status) then LookupFailed
      else Found(body)
  }
}
