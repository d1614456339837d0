/**
 * What a selector's request returns once it is sent: the limited loop of
 * the current client, the fetch-everything loop of `OpynFEC`, the `results`
 * of one response, or the first of those results. A selector that raises
 * makes no request at all.
 */
module Wrapper {
  import opened Values
  import opened Requests
  import opened Paging
  import Legacy

  /** What a public method returns: a list of records, or one record. */
  datatype Answer = Records(records: seq<Record>) | Single(record: Record)

  /** `response["results"]` of one request, or its first element. */
  function OneRequest(client: Client, d: Dispatch): (r: Result<Answer, Error>)
    requires d.mode.OnePage? || d.mode.FirstResult?
    ensures var reply := client.send(MakeRequest(client.apiKey, d.endpoint, d.params));
      && (r == Err(TransportError) <==> reply.Failed?)
      && (d.mode.OnePage? && reply.Page? ==> r == Ok(Records(reply.results)))
      && (d.mode.FirstResult? && reply.Page? ==>
            (r == Err(IndexError) <==> reply.results == []) &&
            (reply.results != [] ==> r == Ok(Single(reply.results[0]))))
  {
    match client.send(MakeRequest(client.apiKey, d.endpoint, d.params))
    case Failed => Err(TransportError)
    case Page(results, _) =>
      if d.mode.OnePage? then Ok(Records(results))
      else if results == [] then Err(IndexError)
      else Ok(Single(results[0]))
  }

  function AsRecords(r: Result<seq<Record>, Error>): Result<Answer, Error> {
    if r.Ok? then Ok(Records(r.value)) else Err(r.error)
  }

  /** The outcome of a public method, given what its selector chose. */
  ghost function Outcome(client: Client, selected: Result<Dispatch, Error>, maxPages: nat): Result<Answer, Error>
    requires Bounded(client, maxPages)
  {
    if selected.Err? then Err(selected.error)
    else
      var d := selected.value;
      match d.mode
      case Limited(callLimit, resultLimit) =>
        AsRecords(Unpaginated(JobFor(client, d.endpoint, callLimit, resultLimit), d.params, maxPages).outcome)
      case AllPages => AsRecords(Legacy.FetchAll(client, Path(d.endpoint), d.params, maxPages).outcome)
      case _ => OneRequest(client, d)
  }

  /** Sends what a selector chose, the way the public method does. */
  method Perform(client: Client, selected: Result<Dispatch, Error>, ghost maxPages: nat)
    returns (r: Result<Answer, Error>)
    requires Bounded(client, maxPages)
    ensures r == Outcome(client, selected, maxPages)
  {
    if selected.Err? {
      return Err(selected.error);
    }
    var d := selected.value;
    match d.mode {
      case Limited(callLimit, resultLimit) =>
        var records := GetUnpaginated(JobFor(client, d.endpoint, callLimit, resultLimit), d.params, maxPages);
        r := AsRecords(records);
      case AllPages =>
        var records := Legacy.GetAllPages(client, Path(d.endpoint), d.params, maxPages);
        r := AsRecords(records);
      case OnePage =>
        r := OneRequest(client, d);
      case FirstResult =>
        r := OneRequest(client, d);
    }
  }

  /** A selector that raises raises the same error from the public method,
      whatever the server would have answered. */
  lemma RejectedBeforeAnyRequest(client: Client, other: Client, e: Error, maxPages: nat)
    requires Bounded(client, maxPages) && Bounded(other, maxPages)
    ensures Outcome(client, Err(e), maxPages) == Outcome(other, Err(e), maxPages) == Err(e)
  {
  }
}
