/**
 * The endpoint selectors of the current client (src/opynfec/api_wrapper.py;
 * opynfec/api_wrapper.py holds the same code). Each selector turns its flags
 * and ids into the endpoint it requests and the parameters it forwards, or
 * raises before any request is made. Every selector except `search` then
 * hands the endpoint to the limited pagination loop; `search` makes one
 * request and returns its `results`.
 */
module Endpoints {
  import opened Values
  import opened Requests

  /** The `/history` suffix shared by `candidate`, `committee` and
      `committees`: `cycle` is always popped from the parameters, and is
      appended to the path only when it is truthy. */
  function History(base: string, kwargs: Params): (r: (string, Params))
    ensures r.1 == kwargs - {"cycle"}
    ensures "cycle" in kwargs && Truthy(kwargs["cycle"]) ==> r.0 == base + "/history/" + Format(kwargs["cycle"])
    ensures !("cycle" in kwargs && Truthy(kwargs["cycle"])) ==> r.0 == base + "/history"
  {
    var (cycle, rest) := Pop(kwargs, "cycle", Bool(false));
    (if Truthy(cycle) then base + "/history/" + Format(cycle) else base + "/history", rest)
  }

  /** `base` followed by a slash and a non-empty segment never equals `base`
      followed by a different fixed segment that starts with another letter. */
  lemma SegmentsDiffer(base: string, a: string, b: string, x: string, y: string)
    requires a != [] && b != [] && a[0] != b[0]
    ensures base + "/" + a + x != base + "/" + b + y
  {
    var k := |base| + 1;
    assert (base + "/" + a + x)[k] == a[0];
    assert (base + "/" + b + y)[k] == b[0];
  }

  /** `candidate(candidate_id, history, totals, call_limit, result_limit, **kwargs)` */
  function Candidate(candidateId: string, history: bool, totals: bool, callLimit: Option<nat>,
                     resultLimit: Option<nat>, kwargs: Params): (r: Result<Dispatch, Error>)
    ensures r.Err? <==> history && totals
    ensures r.Err? ==> r.error == ValueError
    ensures r.Ok? ==> r.value.mode == Limited(callLimit, resultLimit)
    ensures r.Ok? && r.value.endpoint == "candidate/" + candidateId <==> !history && !totals
    ensures r.Ok? && r.value.endpoint == "candidate/" + candidateId + "/totals" <==> !history && totals
    ensures r.Ok? && history ==> (r.value.endpoint, r.value.params) == History("candidate/" + candidateId, kwargs)
    ensures r.Ok? && !history ==> r.value.params == kwargs
  {
    var base := "candidate/" + candidateId;
    if history && totals then Err(ValueError)
    else if history then
      var (endpoint, params) := History(base, kwargs);
      assert endpoint != base + "/totals" by {
        SegmentsDiffer(base, "history", "totals", endpoint[|base| + 8..], "");
        assert endpoint == base + "/" + "history" + endpoint[|base| + 8..];
      }
      assert |endpoint| > |base|;
      Ok(Dispatch(endpoint, params, Limited(callLimit, resultLimit)))
    else if totals then Ok(Dispatch(base + "/totals", kwargs, Limited(callLimit, resultLimit)))
    else Ok(Dispatch(base, kwargs, Limited(callLimit, resultLimit)))
  }

  /** `candidates(search, totals, by_office, by_party, call_limit, result_limit, **kwargs)` */
  function Candidates(search: bool, totals: bool, byOffice: bool, byParty: bool, callLimit: Option<nat>,
                      resultLimit: Option<nat>, kwargs: Params): (r: Result<Dispatch, Error>)
    ensures r.Err? <==> search && (totals || byOffice || byParty)
    ensures r.Err? ==> r.error == ValueError
    ensures r.Ok? ==> r.value.mode == Limited(callLimit, resultLimit) && r.value.params == kwargs
    ensures r.Ok? ==> r.value.endpoint in {"candidates", "candidates/search", "candidates/totals",
                                           "candidates/totals/by_office", "candidates/totals/by_office/by_party"}
    ensures r.Ok? && r.value.endpoint == "candidates" <==> !search && !totals
    ensures r.Ok? && r.value.endpoint == "candidates/search" <==> search && !totals && !byOffice && !byParty
    ensures r.Ok? && r.value.endpoint == "candidates/totals" <==> !search && totals && !byOffice
    ensures r.Ok? && r.value.endpoint == "candidates/totals/by_office" <==> !search && totals && byOffice && !byParty
    ensures r.Ok? && r.value.endpoint == "candidates/totals/by_office/by_party" <==> !search && totals && byOffice && byParty
  {
    var limited := Limited(callLimit, resultLimit);
    if search && totals then Err(ValueError)
    else if search then
      if totals || byOffice || byParty then Err(ValueError)
      else Ok(Dispatch("candidates/search", kwargs, limited))
    else if totals then
      if byOffice then
        if byParty then Ok(Dispatch("candidates/totals/by_office/by_party", kwargs, limited))
        else Ok(Dispatch("candidates/totals/by_office", kwargs, limited))
      else Ok(Dispatch("candidates/totals", kwargs, limited))
    else Ok(Dispatch("candidates", kwargs, limited))
  }

  /** `committee(committee_id, history, call_limit, result_limit, **kwargs)` */
  function Committee(committeeId: string, history: bool, callLimit: Option<nat>, resultLimit: Option<nat>,
                     kwargs: Params): (r: Dispatch)
    ensures r.mode == Limited(callLimit, resultLimit)
    ensures history ==> (r.endpoint, r.params) == History("committee/" + committeeId, kwargs)
    ensures !history ==> r.endpoint == "committee/" + committeeId && r.params == kwargs
  {
    if history then
      var (endpoint, params) := History("committee/" + committeeId, kwargs);
      Dispatch(endpoint, params, Limited(callLimit, resultLimit))
    else Dispatch("committee/" + committeeId, kwargs, Limited(callLimit, resultLimit))
  }

  /** `committees(candidate_id, history, call_limit, result_limit, **kwargs)` */
  function Committees(candidateId: Option<string>, history: bool, callLimit: Option<nat>, resultLimit: Option<nat>,
                      kwargs: Params): (r: Dispatch)
    ensures r.mode == Limited(callLimit, resultLimit)
    ensures candidateId.None? ==> r.endpoint == "committees" && r.params == kwargs
    ensures candidateId.Some? && history ==>
      (r.endpoint, r.params) == History("candidate/" + candidateId.value + "/committees", kwargs)
    ensures candidateId.Some? && !history ==>
      r.endpoint == "candidate/" + candidateId.value + "/committees" && r.params == kwargs
  {
    var limited := Limited(callLimit, resultLimit);
    if candidateId.None? then Dispatch("committees", kwargs, limited)
    else
      var base := "candidate/" + candidateId.value + "/committees";
      if history then
        var (endpoint, params) := History(base, kwargs);
        Dispatch(endpoint, params, limited)
      else Dispatch(base, kwargs, limited)
  }

  /** `search(q, category)`: one request, no pagination. */
  function Search(q: Value, category: string): (r: Result<Dispatch, Error>)
    ensures r.Err? <==> category !in {"candidates", "committees"}
    ensures r.Err? ==> r.error == ValueError
    ensures r.Ok? ==> r.value == Dispatch("names/" + category, map["q" := q], OnePage)
  {
    if category !in {"candidates", "committees"} then Err(ValueError)
    else Ok(Dispatch("names/" + category, map["q" := q], OnePage))
  }

  /** Flags that the selectors read only under another flag change nothing
      on their own (unless `search` makes them an error): `by_party` without
      `by_office`, `by_office` without `totals`, `history` without `candidate_id`, and `by_candidate` or
      `totals` of `receipts` without `by_size` or `by_state`. Without
      `history`, `cycle` stays a query parameter of `committee`. */
  lemma UnusedFlagsIgnored(totals: bool, byOffice: bool, byParty: bool, history: bool,
                           committeeId: string, byEmployer: bool, byOccupation: bool, byCandidate: bool,
                           byZip: bool, efile: bool, subId: Option<string>, callLimit: Option<nat>,
                           resultLimit: Option<nat>, kwargs: Params)
    ensures Candidates(false, totals, false, byParty, callLimit, resultLimit, kwargs)
         == Candidates(false, totals, false, false, callLimit, resultLimit, kwargs)
    ensures Candidates(false, false, byOffice, byParty, callLimit, resultLimit, kwargs)
         == Candidates(false, false, false, false, callLimit, resultLimit, kwargs)
    ensures Committees(None, history, callLimit, resultLimit, kwargs) == Committees(None, false, callLimit, resultLimit, kwargs)
    ensures Receipts(byEmployer, byOccupation, false, byCandidate, false, totals, byZip, efile, subId,
                     callLimit, resultLimit, kwargs)
         == Receipts(byEmployer, byOccupation, false, false, false, false, byZip, efile, subId,
                     callLimit, resultLimit, kwargs)
    ensures "cycle" in kwargs ==> Committee(committeeId, false, callLimit, resultLimit, kwargs).params["cycle"] == kwargs["cycle"]
  {
  }

  // ---------------------------------------------------------------------
  // financial

  /** The guard of the `totals` branch as written,
      `by_entity == entity_type is None`: Python chains the two comparisons
      into `by_entity == entity_type and entity_type is None`. */
  predicate ChainedGuard(byEntity: bool, entityType: Option<string>) {
    PyEquals(Bool(byEntity), OfOptional(entityType)) && entityType.None?
  }

  /** The guard never holds: a bool never equals `None`. */
  lemma ChainedGuardNeverHolds(byEntity: bool, entityType: Option<string>)
    ensures !ChainedGuard(byEntity, entityType)
  {
    if entityType.None? {
      assert OfOptional(entityType) == Null;
      assert Numeric(Null).None?;
    }
  }

  /** The endpoints `financial` selects when no `committee_id` is given;
      `totals` is the branch that differs between the code as written and
      as intended. */
  function FinancialOther(reports: bool, totals: bool, elections: bool, search: bool, summary: bool,
                          entityType: Option<string>, totalsEndpoint: Result<string, Error>): Result<string, Error>
  {
    if elections then Ok(if search then "elections/search" else if summary then "elections/summary" else "elections")
    else if reports then
      if entityType.None? then Err(ValueError) else Ok("reports/" + entityType.value)
    else if totals then totalsEndpoint
    else Err(ValueError)
  }

  /** The `totals` branch as written: the guard never fires, so `by_entity`
      wins over `entity_type`, and with neither of them the concatenation
      `"totals/" + None` raises TypeError. */
  function TotalsAsWritten(byEntity: bool, entityType: Option<string>): (r: Result<string, Error>)
    ensures byEntity ==> r == Ok("totals/by_entity")
    ensures !byEntity && entityType.Some? ==> r == Ok("totals/" + entityType.value)
    ensures !byEntity && entityType.None? ==> r == Err(TypeError)
  {
    if ChainedGuard(byEntity, entityType) then Err(ValueError)
    else if byEntity then Ok("totals/by_entity")
    else if entityType.None? then Err(TypeError)
    else Ok("totals/" + entityType.value)
  }

  /** The `totals` branch as its error message describes it: exactly one of
      `by_entity` and `entity_type` may be given. */
  function TotalsChecked(byEntity: bool, entityType: Option<string>): (r: Result<string, Error>)
    ensures r.Err? <==> byEntity == entityType.Some?
    ensures r.Err? ==> r.error == ValueError
    ensures r.Ok? ==> r.value == if byEntity then "totals/by_entity" else "totals/" + entityType.value
  {
    if byEntity == entityType.Some? then Err(ValueError)
    else if byEntity then Ok("totals/by_entity")
    else Ok("totals/" + entityType.value)
  }

  function FinancialWith(committeeId: Option<string>, reports: bool, totals: bool, elections: bool, search: bool,
                         summary: bool, entityType: Option<string>, totalsEndpoint: Result<string, Error>,
                         callLimit: Option<nat>, resultLimit: Option<nat>, kwargs: Params): Result<Dispatch, Error>
  {
    var endpoint :=
      if committeeId.Some? && entityType.Some? then Err(ValueError)
      else if committeeId.Some? then
        if reports == totals then Err(ValueError)
        else Ok("committee/" + committeeId.value + "/" + (if reports then "reports" else "totals"))
      else FinancialOther(reports, totals, elections, search, summary, entityType, totalsEndpoint);
    if endpoint.Err? then Err(endpoint.error) else Ok(Dispatch(endpoint.value, kwargs, Limited(callLimit, resultLimit)))
  }

  /** `financial(committee_id, reports, totals, elections, search, summary,
      entity_type, by_entity, call_limit, result_limit, **kwargs)` as written. */
  function Financial(committeeId: Option<string>, reports: bool, totals: bool, elections: bool, search: bool,
                     summary: bool, entityType: Option<string>, byEntity: bool, callLimit: Option<nat>,
                     resultLimit: Option<nat>, kwargs: Params): (r: Result<Dispatch, Error>)
    ensures r.Ok? ==> r.value.mode == Limited(callLimit, resultLimit) && r.value.params == kwargs
    ensures committeeId.Some? && entityType.Some? ==> r == Err(ValueError)
    ensures committeeId.Some? && entityType.None? ==>
      (r.Err? <==> reports == totals) &&
      (r.Ok? ==> r.value.endpoint == "committee/" + committeeId.value + "/" + (if reports then "reports" else "totals"))
    ensures committeeId.None? && !elections && !reports && totals && byEntity ==>
      r.Ok? && r.value.endpoint == "totals/by_entity"
    ensures committeeId.None? && !elections && !reports && totals && !byEntity && entityType.None? ==>
      r == Err(TypeError)
    ensures r.Err? ==> r.error == ValueError || r.error == TypeError
  {
    FinancialWith(committeeId, reports, totals, elections, search, summary, entityType,
                  TotalsAsWritten(byEntity, entityType), callLimit, resultLimit, kwargs)
  }

  /** `financial` with the `totals` guard written as intended. */
  function FinancialChecked(committeeId: Option<string>, reports: bool, totals: bool, elections: bool, search: bool,
                            summary: bool, entityType: Option<string>, byEntity: bool, callLimit: Option<nat>,
                            resultLimit: Option<nat>, kwargs: Params): (r: Result<Dispatch, Error>)
    ensures r.Ok? ==> r.value.mode == Limited(callLimit, resultLimit) && r.value.params == kwargs
    ensures r.Err? ==> r.error == ValueError
    ensures committeeId.None? && !elections && !reports && totals ==>
      (r.Err? <==> byEntity == entityType.Some?)
  {
    FinancialWith(committeeId, reports, totals, elections, search, summary, entityType,
                  TotalsChecked(byEntity, entityType), callLimit, resultLimit, kwargs)
  }

  /** Which branch of `financial` handles a call: `committee_id` first, then
      `elections`, then `reports`, then `totals`; with none of them the call
      is rejected. The two versions differ only in the `totals` branch, and
      there exactly when both or neither of `by_entity` and `entity_type`
      are given. */
  lemma FinancialGuardFinding(committeeId: Option<string>, reports: bool, totals: bool, elections: bool,
                              search: bool, summary: bool, entityType: Option<string>, byEntity: bool,
                              callLimit: Option<nat>, resultLimit: Option<nat>, kwargs: Params)
    ensures var written := Financial(committeeId, reports, totals, elections, search, summary, entityType, byEntity,
                                     callLimit, resultLimit, kwargs);
      var checked := FinancialChecked(committeeId, reports, totals, elections, search, summary, entityType, byEntity,
                                      callLimit, resultLimit, kwargs);
      && (written != checked <==>
            committeeId.None? && !elections && !reports && totals && byEntity == entityType.Some?)
      && (committeeId.None? && !elections && !reports && totals && byEntity && entityType.Some? ==>
            written.Ok? && written.value.endpoint == "totals/by_entity" && checked == Err(ValueError))
      && (committeeId.None? && !elections && !reports && totals && !byEntity && entityType.None? ==>
            written == Err(TypeError) && checked == Err(ValueError))
  {
    ChainedGuardNeverHolds(byEntity, entityType);
  }

  /** The branch `financial` takes when no `committee_id` is given and
      neither `elections`, `reports` nor `totals` is set: rejected, and
      `search`, `summary` and `by_entity` alone never choose an endpoint. */
  lemma FinancialNeedsEndpoint(search: bool, summary: bool, entityType: Option<string>, byEntity: bool,
                               callLimit: Option<nat>, resultLimit: Option<nat>, kwargs: Params)
    ensures Financial(None, false, false, false, search, summary, entityType, byEntity, callLimit, resultLimit, kwargs)
         == Err(ValueError)
    ensures FinancialChecked(None, false, false, false, search, summary, entityType, byEntity, callLimit, resultLimit,
                             kwargs) == Err(ValueError)
  {
  }

  /** Where a call to `financial` goes, in the order the branches are tried:
      `committee_id` first, then `elections` (where `search` wins over
      `summary`), then `reports`, then `totals`; nothing else selects an
      endpoint. */
  predicate FinancialRouted(r: Result<Dispatch, Error>, committeeId: Option<string>, reports: bool, totals: bool,
                            elections: bool, search: bool, summary: bool, entityType: Option<string>,
                            byEntity: bool, callLimit: Option<nat>, resultLimit: Option<nat>, kwargs: Params)
  {
    var mode := Limited(callLimit, resultLimit);
    && (committeeId.Some? ==>
          r == if entityType.Some? || reports == totals then Err(ValueError)
               else Ok(Dispatch("committee/" + committeeId.value + "/" + (if reports then "reports" else "totals"),
                                kwargs, mode)))
    && (committeeId.None? && elections ==>
          r == Ok(Dispatch(if search then "elections/search" else if summary then "elections/summary" else "elections",
                           kwargs, mode)))
    && (committeeId.None? && !elections && reports ==>
          r == if entityType.None? then Err(ValueError) else Ok(Dispatch("reports/" + entityType.value, kwargs, mode)))
    && (committeeId.None? && !elections && !reports && totals && byEntity && entityType.None? ==>
          r == Ok(Dispatch("totals/by_entity", kwargs, mode)))
    && (committeeId.None? && !elections && !reports && totals && !byEntity && entityType.Some? ==>
          r == Ok(Dispatch("totals/" + entityType.value, kwargs, mode)))
    && (committeeId.None? && !elections && !reports && !totals ==> r == Err(ValueError))
  }

  /** Both versions of `financial` take these routes; they part only where
      `FinancialGuardFinding` says, in the `totals` branch when both or
      neither of `by_entity` and `entity_type` are given. */
  lemma FinancialRoutes(committeeId: Option<string>, reports: bool, totals: bool, elections: bool,
                        search: bool, summary: bool, entityType: Option<string>, byEntity: bool,
                        callLimit: Option<nat>, resultLimit: Option<nat>, kwargs: Params)
    ensures FinancialRouted(Financial(committeeId, reports, totals, elections, search, summary, entityType, byEntity,
                                      callLimit, resultLimit, kwargs),
                            committeeId, reports, totals, elections, search, summary, entityType, byEntity,
                            callLimit, resultLimit, kwargs)
    ensures FinancialRouted(FinancialChecked(committeeId, reports, totals, elections, search, summary, entityType,
                                             byEntity, callLimit, resultLimit, kwargs),
                            committeeId, reports, totals, elections, search, summary, entityType, byEntity,
                            callLimit, resultLimit, kwargs)
  {
    ChainedGuardNeverHolds(byEntity, entityType);
  }

  // ---------------------------------------------------------------------
  // receipts and disbursements

  /** A flag counted as a number, as `sum` counts a bool. */
  function One(b: bool): nat {
    if b then 1 else 0
  }

  /** `sum(mutually_exclusive)` in `receipts`. */
  function ReceiptFlagsSet(byEmployer: bool, byOccupation: bool, bySize: bool, byState: bool, byZip: bool,
                           efile: bool, subId: Option<string>): nat
  {
    One(byEmployer) + One(byOccupation) + One(bySize) + One(byState) + One(byZip) + One(efile) + One(subId.Some?)
  }

  /** The `by_candidate`/`totals` suffix under `by_size` or `by_state`. */
  function ReceiptsSuffix(byEmployer: bool, byOccupation: bool, bySize: bool, byCandidate: bool, byState: bool,
                          totals: bool, byZip: bool, efile: bool, subId: Option<string>): string
  {
    if byEmployer then "/by_employer"
    else if byOccupation then "/by_occupation"
    else if bySize then "/by_size" + (if byCandidate then "/by_candidate" else "")
    else if byState then
      "/by_state" + (if byCandidate then "/by_candidate" + (if totals then "/totals" else "")
                     else if totals then "/totals" else "")
    else if byZip then "/by_zip"
    else if efile then "/efile"
    else if subId.Some? then "/" + subId.value
    else ""
  }

  const ScheduleA: string := "schedules/schedule_a"
  const ScheduleB: string := "schedules/schedule_b"

  /** `receipts(by_employer, by_occupation, by_size, by_candidate, by_state,
      totals, by_zip, efile, sub_id, call_limit, result_limit, **kwargs)` */
  function Receipts(byEmployer: bool, byOccupation: bool, bySize: bool, byCandidate: bool, byState: bool,
                    totals: bool, byZip: bool, efile: bool, subId: Option<string>, callLimit: Option<nat>,
                    resultLimit: Option<nat>, kwargs: Params): (r: Result<Dispatch, Error>)
    ensures r.Err? <==> ReceiptFlagsSet(byEmployer, byOccupation, bySize, byState, byZip, efile, subId) > 1
    ensures r.Err? ==> r.error == ValueError
    ensures r.Ok? ==> r.value.mode == Limited(callLimit, resultLimit) && r.value.params == kwargs
  {
    if ReceiptFlagsSet(byEmployer, byOccupation, bySize, byState, byZip, efile, subId) > 1 then Err(ValueError)
    else
      var suffix := ReceiptsSuffix(byEmployer, byOccupation, bySize, byCandidate, byState, totals, byZip, efile, subId);
      Ok(Dispatch(ScheduleA + suffix, kwargs, Limited(callLimit, resultLimit)))
  }

  /** Since at most one of the exclusive flags can be set, the order of the
      `elif` chain in `receipts` never matters: each set flag alone decides
      the endpoint, and `by_candidate` and `totals` only add to `by_size`
      and `by_state`. */
  lemma ReceiptsRoutes(byEmployer: bool, byOccupation: bool, bySize: bool, byCandidate: bool, byState: bool,
                       totals: bool, byZip: bool, efile: bool, subId: Option<string>, callLimit: Option<nat>,
                       resultLimit: Option<nat>, kwargs: Params)
    ensures var r := Receipts(byEmployer, byOccupation, bySize, byCandidate, byState, totals, byZip, efile, subId,
                              callLimit, resultLimit, kwargs);
      && (r.Ok? && byEmployer ==> r.value.endpoint == ScheduleA + "/by_employer")
      && (r.Ok? && byOccupation ==> r.value.endpoint == ScheduleA + "/by_occupation")
      && (r.Ok? && bySize ==>
            r.value.endpoint == ScheduleA + "/by_size" + (if byCandidate then "/by_candidate" else ""))
      && (r.Ok? && byState ==>
            r.value.endpoint == ScheduleA + "/by_state" + (if byCandidate then "/by_candidate" else "")
                                + (if totals then "/totals" else ""))
      && (r.Ok? && byZip ==> r.value.endpoint == ScheduleA + "/by_zip")
      && (r.Ok? && efile ==> r.value.endpoint == ScheduleA + "/efile")
      && (r.Ok? && subId.Some? ==> r.value.endpoint == ScheduleA + "/" + subId.value)
      && (r.Ok? && !byEmployer && !byOccupation && !bySize && !byState && !byZip && !efile && subId.None? ==>
            r.value.endpoint == ScheduleA)
  {
    var r := Receipts(byEmployer, byOccupation, bySize, byCandidate, byState, totals, byZip, efile, subId,
                      callLimit, resultLimit, kwargs);
    if r.Ok? {
      var a := ScheduleA;
      var c := if byCandidate then "/by_candidate" else "";
      var t := if totals then "/totals" else "";
      if byEmployer {
        assert r.value.endpoint == a + "/by_employer";
      } else if byOccupation {
        assert r.value.endpoint == a + "/by_occupation";
      } else if bySize {
        assert !byState && !byZip && !efile && subId.None?;
        assert r.value.endpoint == a + ("/by_size" + c);
      } else if byState {
        assert !byZip && !efile && subId.None?;
        assert r.value.endpoint == a + ("/by_state" + c + t);
      } else if byZip {
        assert r.value.endpoint == a + "/by_zip";
      } else if efile {
        assert r.value.endpoint == a + "/efile";
      } else if subId.Some? {
        assert r.value.endpoint == a + ("/" + subId.value);
      } else {
        assert r.value.endpoint == a + "";
      }
    }
  }

  /** `sum(mutually_exclusive)` in `disbursements`. */
  function DisbursementFlagsSet(byPurpose: bool, byRecipient: bool, byRecipientId: bool, efile: bool,
                                subId: Option<string>): nat
  {
    One(byPurpose) + One(byRecipient) + One(byRecipientId) + One(efile) + One(subId.Some?)
  }

  function DisbursementsSuffix(byPurpose: bool, byRecipient: bool, byRecipientId: bool, efile: bool,
                               subId: Option<string>): string
  {
    if byPurpose then "/by_purpose"
    else if byRecipient then "/by_recipient"
    else if byRecipientId then "/by_recipient_id"
    else if efile then "/efile"
    else if subId.Some? then "/" + subId.value
    else ""
  }

  /** `disbursements(by_purpose, by_recipient, by_recipient_id, efile,
      sub_id, call_limit, result_limit, **kwargs)` */
  function Disbursements(byPurpose: bool, byRecipient: bool, byRecipientId: bool, efile: bool,
                         subId: Option<string>, callLimit: Option<nat>, resultLimit: Option<nat>,
                         kwargs: Params): (r: Result<Dispatch, Error>)
    ensures r.Err? <==> DisbursementFlagsSet(byPurpose, byRecipient, byRecipientId, efile, subId) > 1
    ensures r.Err? ==> r.error == ValueError
    ensures r.Ok? ==> r.value.mode == Limited(callLimit, resultLimit) && r.value.params == kwargs
  {
    if DisbursementFlagsSet(byPurpose, byRecipient, byRecipientId, efile, subId) > 1 then Err(ValueError)
    else
      var suffix := DisbursementsSuffix(byPurpose, byRecipient, byRecipientId, efile, subId);
      Ok(Dispatch(ScheduleB + suffix, kwargs, Limited(callLimit, resultLimit)))
  }

  /** As for `receipts`, each set flag of `disbursements` alone decides the
      endpoint, whatever its place in the `elif` chain. */
  lemma DisbursementsRoutes(byPurpose: bool, byRecipient: bool, byRecipientId: bool, efile: bool,
                            subId: Option<string>, callLimit: Option<nat>, resultLimit: Option<nat>, kwargs: Params)
    ensures var r := Disbursements(byPurpose, byRecipient, byRecipientId, efile, subId, callLimit, resultLimit, kwargs);
      && (r.Ok? && byPurpose ==> r.value.endpoint == ScheduleB + "/by_purpose")
      && (r.Ok? && byRecipient ==> r.value.endpoint == ScheduleB + "/by_recipient")
      && (r.Ok? && byRecipientId ==> r.value.endpoint == ScheduleB + "/by_recipient_id")
      && (r.Ok? && efile ==> r.value.endpoint == ScheduleB + "/efile")
      && (r.Ok? && subId.Some? ==> r.value.endpoint == ScheduleB + "/" + subId.value)
      && (r.Ok? && !byPurpose && !byRecipient && !byRecipientId && !efile && subId.None? ==>
            r.value.endpoint == ScheduleB)
  {
    var r := Disbursements(byPurpose, byRecipient, byRecipientId, efile, subId, callLimit, resultLimit, kwargs);
    if r.Ok? {
      var b := ScheduleB;
      if byPurpose {
        assert r.value.endpoint == b + "/by_purpose";
      } else if byRecipient {
        assert r.value.endpoint == b + "/by_recipient";
      } else if byRecipientId {
        assert r.value.endpoint == b + "/by_recipient_id";
      } else if efile {
        assert r.value.endpoint == b + "/efile";
      } else if subId.Some? {
        assert r.value.endpoint == b + ("/" + subId.value);
      } else {
        assert r.value.endpoint == b + "";
      }
    }
  }
}
