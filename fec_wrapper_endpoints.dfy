/**
 * The endpoint selectors of the oldest client, `FECAPIWrapper`
 * (fec_api_wrapper.py). `candidate` returns the first record of one
 * response, `candidate_history` takes `cycle` as a parameter of its own and
 * appends it whenever it is given, and `search` is as in every later client.
 */
module FecWrapper {
  import opened Values
  import opened Requests
  import Endpoints

  /** `candidate(candidate_id, **kwargs)`: element 0 of the `results`. */
  function Candidate(candidateId: string, kwargs: Params): (r: Dispatch)
    ensures r.endpoint == "candidate/" + candidateId && r.params == kwargs && r.mode == FirstResult
  {
    Dispatch("candidate/" + candidateId, kwargs, FirstResult)
  }

  /** `candidate_history(candidate_id, cycle, **kwargs)`: the test is
      `cycle is not None`, so a cycle of 0 is appended too. */
  function CandidateHistory(candidateId: string, cycle: Option<int>, kwargs: Params): (r: Dispatch)
    ensures r.params == kwargs && r.mode == OnePage
    ensures cycle.Some? <==> |r.endpoint| > |"candidate/" + candidateId + "/history"|
    ensures cycle.Some? ==> r.endpoint == "candidate/" + candidateId + "/history/" + Format(Int(cycle.value))
    ensures cycle.None? ==> r.endpoint == "candidate/" + candidateId + "/history"
  {
    var base := "candidate/" + candidateId + "/history";
    if cycle.Some? then Dispatch(base + "/" + Format(Int(cycle.value)), kwargs, OnePage)
    else Dispatch(base, kwargs, OnePage)
  }

  /** `search(q, category)`: the same code as in the current client, so it
      is the current client's selector. */
  function Search(q: Value, category: string): (r: Result<Dispatch, Error>)
    ensures r.Err? <==> category !in {"candidates", "committees"}
    ensures r.Err? ==> r.error == ValueError
    ensures r.Ok? ==> r.value.mode == OnePage
  {
    Endpoints.Search(q, category)
  }

  /** A non-zero cycle selects the same history path as the current client
      given `cycle` among its keyword arguments, and the current client does
      not forward it as a query parameter either. A cycle of 0 is appended
      here but dropped there: the current client pops it, finds it falsy, and
      requests the history of every cycle. */
  lemma CycleTests(candidateId: string, cycle: int, kwargs: Params, callLimit: Option<nat>,
                   resultLimit: Option<nat>)
    requires "cycle" !in kwargs
    ensures var current := Endpoints.Candidate(candidateId, true, false, callLimit, resultLimit,
                                               kwargs["cycle" := Int(cycle)]);
      && current.Ok?
      && current.value.params == kwargs
      && (cycle != 0 ==> current.value.endpoint == CandidateHistory(candidateId, Some(cycle), kwargs).endpoint)
      && (cycle == 0 ==> current.value.endpoint == CandidateHistory(candidateId, None, kwargs).endpoint)
      && (cycle == 0 ==> current.value.endpoint != CandidateHistory(candidateId, Some(0), kwargs).endpoint)
  {
    var m := kwargs["cycle" := Int(cycle)];
    assert m - {"cycle"} == kwargs;
    assert "candidate/" + candidateId + "/history" + "/" + Format(Int(cycle))
        == "candidate/" + candidateId + "/history/" + Format(Int(cycle));
  }
}
