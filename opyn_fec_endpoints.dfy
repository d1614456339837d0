/**
 * The endpoint selectors of the older `OpynFEC` client (opyn_fec.py). They
 * take no limits: every selector hands its endpoint to the loop that
 * fetches every page. Apart from that, `candidate`, `candidates`,
 * `committee` and `search` choose the same endpoints and forward the same
 * parameters as the current client; `committees` for a candidate leaves out
 * the `/committees` segment and so requests the candidate itself.
 */
module OpynFec {
  import opened Values
  import opened Requests
  import Endpoints

  /** `candidate(candidate_id, history, totals, **kwargs)` */
  function Candidate(candidateId: string, history: bool, totals: bool, kwargs: Params): (r: Result<Dispatch, Error>)
    ensures r.Err? <==> history && totals
    ensures r.Err? ==> r.error == ValueError
    ensures r.Ok? ==> r.value.mode == AllPages
  {
    var base := "candidate/" + candidateId;
    if history && totals then Err(ValueError)
    else if history then
      var (endpoint, params) := Endpoints.History(base, kwargs);
      Ok(Dispatch(endpoint, params, AllPages))
    else if totals then Ok(Dispatch(base + "/totals", kwargs, AllPages))
    else Ok(Dispatch(base, kwargs, AllPages))
  }

  /** `candidates(search, totals, by_office, by_party, **kwargs)` */
  function Candidates(search: bool, totals: bool, byOffice: bool, byParty: bool, kwargs: Params): (r: Result<Dispatch, Error>)
    ensures r.Err? <==> search && (totals || byOffice || byParty)
    ensures r.Err? ==> r.error == ValueError
    ensures r.Ok? ==> r.value.mode == AllPages && r.value.params == kwargs
  {
    if search && totals then Err(ValueError)
    else if search then
      if totals || byOffice || byParty then Err(ValueError)
      else Ok(Dispatch("candidates/search", kwargs, AllPages))
    else if totals then
      if byOffice then
        if byParty then Ok(Dispatch("candidates/totals/by_office/by_party", kwargs, AllPages))
        else Ok(Dispatch("candidates/totals/by_office", kwargs, AllPages))
      else Ok(Dispatch("candidates/totals", kwargs, AllPages))
    else Ok(Dispatch("candidates", kwargs, AllPages))
  }

  /** `committee(committee_id, history, **kwargs)` */
  function Committee(committeeId: string, history: bool, kwargs: Params): (r: Dispatch)
    ensures r.mode == AllPages
    ensures !history ==> r.params == kwargs
  {
    if history then
      var (endpoint, params) := Endpoints.History("committee/" + committeeId, kwargs);
      Dispatch(endpoint, params, AllPages)
    else Dispatch("committee/" + committeeId, kwargs, AllPages)
  }

  /** `committees(candidate_id, history, **kwargs)` as written: for a
      candidate the path is built without `/committees`. */
  function Committees(candidateId: Option<string>, history: bool, kwargs: Params): (r: Dispatch)
    ensures r.mode == AllPages
    ensures candidateId.None? ==> r.endpoint == "committees" && r.params == kwargs
  {
    if candidateId.None? then Dispatch("committees", kwargs, AllPages)
    else
      var base := "candidate/" + candidateId.value;
      if history then
        var (endpoint, params) := Endpoints.History(base, kwargs);
        Dispatch(endpoint, params, AllPages)
      else Dispatch(base, kwargs, AllPages)
  }

  /** `search(q, category)`: the same code as in the current client, so it
      is the current client's selector. */
  function Search(q: Value, category: string): (r: Result<Dispatch, Error>)
    ensures r.Err? <==> category !in {"candidates", "committees"}
    ensures r.Err? ==> r.error == ValueError
    ensures r.Ok? ==> r.value.mode == OnePage
  {
    Endpoints.Search(q, category)
  }

  /** The same request with the fetch-everything loop in place of the
      limited one. */
  function Unlimited(r: Result<Dispatch, Error>): Result<Dispatch, Error> {
    if r.Ok? then Ok(Dispatch(r.value.endpoint, r.value.params, AllPages)) else r
  }

  /** The older selectors reject the same calls as the current ones, with the
      same error, and otherwise choose the same endpoint and parameters. */
  lemma SameSelectionAsCurrent(candidateId: string, history: bool, totals: bool, search: bool, byOffice: bool,
                               byParty: bool, q: Value, category: string, callLimit: Option<nat>,
                               resultLimit: Option<nat>, kwargs: Params)
    ensures Candidate(candidateId, history, totals, kwargs)
         == Unlimited(Endpoints.Candidate(candidateId, history, totals, callLimit, resultLimit, kwargs))
    ensures Candidates(search, totals, byOffice, byParty, kwargs)
         == Unlimited(Endpoints.Candidates(search, totals, byOffice, byParty, callLimit, resultLimit, kwargs))
    ensures Committee(candidateId, history, kwargs)
         == Unlimited(Ok(Endpoints.Committee(candidateId, history, callLimit, resultLimit, kwargs))).value
    ensures Committees(None, history, kwargs)
         == Unlimited(Ok(Endpoints.Committees(None, history, callLimit, resultLimit, kwargs))).value
    ensures Search(q, category) == Endpoints.Search(q, category)
  {
  }

  /** For a candidate, the older `committees` requests exactly what
      `candidate` requests for that candidate. */
  lemma CommitteesIsCandidate(candidateId: string, history: bool, kwargs: Params)
    ensures Ok(Committees(Some(candidateId), history, kwargs)) == Candidate(candidateId, history, false, kwargs)
  {
  }

  /** The history endpoint of a path never equals that of the path with
      `/committees` appended. */
  lemma HistoryMissesSegment(base: string, kwargs: Params)
    ensures Endpoints.History(base, kwargs).0 != Endpoints.History(base + "/committees", kwargs).0
  {
    var older := Endpoints.History(base, kwargs).0;
    var current := Endpoints.History(base + "/committees", kwargs).0;
    var tail := if "cycle" in kwargs && Truthy(kwargs["cycle"]) then "/" + Format(kwargs["cycle"]) else "";
    assert older == base + "/" + "history" + tail;
    assert current == base + "/" + "committees" + ("/history" + tail);
    Endpoints.SegmentsDiffer(base, "history", "committees", tail, "/history" + tail);
  }

  /** So the older `committees` never requests the path of a candidate's
      committees that the current client requests. */
  lemma CommitteesMissesSegment(candidateId: string, history: bool, kwargs: Params)
    ensures Committees(Some(candidateId), history, kwargs).endpoint
         != Endpoints.Committees(Some(candidateId), history, None, None, kwargs).endpoint
  {
    var base := "candidate/" + candidateId;
    if history {
      HistoryMissesSegment(base, kwargs);
    } else {
      assert |Committees(Some(candidateId), history, kwargs).endpoint| == |base|;
    }
  }
}
