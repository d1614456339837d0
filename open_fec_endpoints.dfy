/**
 * The endpoint selectors of the `OpenFEC` client (open_fec.py). There is no
 * pagination: every selector makes one request and returns that response's
 * `results`. `candidates` has no separate check of `search` together with
 * `totals`; the broader check that follows rejects those calls anyway.
 */
module OpenFec {
  import opened Values
  import opened Requests
  import Endpoints

  /** `candidate(candidate_id, history, totals, **kwargs)` */
  function Candidate(candidateId: string, history: bool, totals: bool, kwargs: Params): (r: Result<Dispatch, Error>)
    ensures r.Err? <==> history && totals
    ensures r.Err? ==> r.error == ValueError
    ensures r.Ok? ==> r.value.mode == OnePage
  {
    var base := "candidate/" + candidateId;
    if history && totals then Err(ValueError)
    else if history then
      var (endpoint, params) := Endpoints.History(base, kwargs);
      Ok(Dispatch(endpoint, params, OnePage))
    else if totals then Ok(Dispatch(base + "/totals", kwargs, OnePage))
    else Ok(Dispatch(base, kwargs, OnePage))
  }

  /** `candidates(search, totals, by_office, by_party, **kwargs)` */
  function Candidates(search: bool, totals: bool, byOffice: bool, byParty: bool, kwargs: Params): (r: Result<Dispatch, Error>)
    ensures r.Err? <==> search && (totals || byOffice || byParty)
    ensures r.Err? ==> r.error == ValueError
    ensures r.Ok? ==> r.value.mode == OnePage && r.value.params == kwargs
  {
    if search then
      if totals || byOffice || byParty then Err(ValueError)
      else Ok(Dispatch("candidates/search", kwargs, OnePage))
    else if totals then
      if byOffice then
        if byParty then Ok(Dispatch("candidates/totals/by_office/by_party", kwargs, OnePage))
        else Ok(Dispatch("candidates/totals/by_office", kwargs, OnePage))
      else Ok(Dispatch("candidates/totals", kwargs, OnePage))
    else Ok(Dispatch("candidates", kwargs, OnePage))
  }

  /** `search(q, category)`: the same code as in the current client, so it
      is the current client's selector. */
  function Search(q: Value, category: string): (r: Result<Dispatch, Error>)
    ensures r.Err? <==> category !in {"candidates", "committees"}
    ensures r.Err? ==> r.error == ValueError
    ensures r.Ok? ==> r.value.mode == OnePage
  {
    Endpoints.Search(q, category)
  }

  /** The same request answered by its first response alone. */
  function FirstPageOnly(r: Result<Dispatch, Error>): Result<Dispatch, Error> {
    if r.Ok? then Ok(Dispatch(r.value.endpoint, r.value.params, OnePage)) else r
  }

  /** Without the separate check, `candidates` still rejects exactly the
      calls the current client rejects, and chooses the same endpoints;
      `candidate` and `search` choose as the current client does. */
  lemma SameSelectionAsCurrent(candidateId: string, history: bool, totals: bool, search: bool, byOffice: bool,
                               byParty: bool, q: Value, category: string, callLimit: Option<nat>,
                               resultLimit: Option<nat>, kwargs: Params)
    ensures Candidate(candidateId, history, totals, kwargs)
         == FirstPageOnly(Endpoints.Candidate(candidateId, history, totals, callLimit, resultLimit, kwargs))
    ensures Candidates(search, totals, byOffice, byParty, kwargs)
         == FirstPageOnly(Endpoints.Candidates(search, totals, byOffice, byParty, callLimit, resultLimit, kwargs))
    ensures Search(q, category) == Endpoints.Search(q, category)
  {
  }
}
