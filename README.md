# opynfec in Dafny

A model of the `opynfec` client for the OpenFEC API of the Federal Election
Commission, and of the script that reshapes downloaded records into a graph.

- **Requests** (`requests.dfy`). `_get_request` adds the client's
  `api_key` to the caller's parameters. It strips the surrounding slashes
  from the endpoint and sends a GET request to the base URL plus that
  endpoint. The server is a function from requests to replies. A reply is
  a page (`results` and the reported number of `pages`), or a failure:
  a transport error or an HTTP error raised by `raise_for_status`.
- **The limited pagination loop** (`paging.dfy`). This is
  `_get_unpaginated_request` of the current client, with `call_limit`,
  `result_limit`, the default `per_page` of min(100, result_limit), and the
  shrinking of `per_page` near the limit. A specification function records
  every fetch and the outcome. A method with a `while` loop is proved equal
  to it. Lemmas state what the loop promises: page order, the call limit,
  the result as a truncated prefix of what was fetched, forwarding of the
  caller's parameters, and the error paths.
- **Offset servers** (`offset_paging.dfy`). This is a server that serves
  page `n` of size `p` as records `(n-1)p` to `np` of one fixed list. On
  such a server the shrinking `per_page` makes the loop return some records
  twice (see Findings). The same loop without the shrink is proved to
  return the first records of the list.
- **The older fetch-everything loop** of `OpynFEC` in `opyn_fec.py`
  (`legacy.dfy`). It has no limits and always uses `per_page` 100 unless
  the caller overrides it. It is proved to agree with the limited loop when
  no limits are given.
- **Endpoint selectors** of the four client classes (`endpoints.dfy`,
  `opyn_fec_endpoints.dfy`, `open_fec_endpoints.dfy`,
  `fec_wrapper_endpoints.dfy`). They cover `candidate`, `candidates`,
  `committee`, `committees`, `search`, `financial`, `receipts`,
  `disbursements`, `candidate_history`: which flag combinations raise
  `ValueError`, which endpoint each one chooses, which parameters go with
  it, and which loop sends it. `wrapper.dfy` sends what a selector chose.
- **The graph export** of `sample_data/reformat_for_nodes.py`
  (`graph_export.dfy`). Committee-to-committee donations, candidates with
  their principal committees, and individual donations become nodes and
  edges, in input order. A fresh id is drawn wherever a record's id is
  `None`. `to_single_json.py` holds the same code.

Python values are modelled by `Values.Value`: `None`, bool, int, str and
lists. The model includes Python truthiness, `str()` formatting in
f-strings, and the int arithmetic of `bool`. Numbers are unbounded
integers, as in Python. `math.inf` is modelled as `None` in an `Option`.

## Model

| member | source | states |
|---|---|---|
| Values.Numeric | src/opynfec/api_wrapper.py:63-64 | a value has an integer meaning in `len(...) + per_page` exactly when it is an int or a bool, and an int means itself |
| Values.Truthy | src/opynfec/api_wrapper.py:132 | Python truthiness as `if cycle:` decides it: `None`, `False`, 0, the empty string and the empty list are false |
| Values.PyEquals | src/opynfec/api_wrapper.py:335 | Python `==` on these values: numbers compare by value across bool and int, other values only to themselves |
| Values.Format | src/opynfec/api_wrapper.py:133 | how a value is written inside an f-string |
| Values.Digits | src/opynfec/api_wrapper.py:133 | `str(n)` of a natural number: a non-empty string of digits that denotes `n`, with no leading zero |
| Values.DigitsInjective | src/opynfec/api_wrapper.py:133 | different cycles give different strings, so different history paths |
| Values.Pop | src/opynfec/api_wrapper.py:131 | `kwargs.pop(key, default)` removes the key and returns its value, or the default when absent |
| Requests.StripLeading | src/opynfec/api_wrapper.py:31 | the result does not start with `/` |
| Requests.StripTrailing | src/opynfec/api_wrapper.py:31 | the result is a prefix of the input and does not end with `/` |
| Requests.Strip | src/opynfec/api_wrapper.py:31 | the stripped endpoint has no slash at either end |
| Requests.LeadingSplit | src/opynfec/api_wrapper.py:31 | every string is a run of slashes followed by its left-stripped form |
| Requests.TrailingSplit | src/opynfec/api_wrapper.py:31 | every string is its right-stripped form followed by a run of slashes |
| Requests.StripSplit | src/opynfec/api_wrapper.py:31 | every string is slashes, then its stripped form, then slashes, so stripping removes only slashes at the ends |
| Requests.StripLeadingPadded | src/opynfec/api_wrapper.py:31 | left-stripping slashes put in front of a string that does not start with `/` gives that string back |
| Requests.StripTrailingPadded | src/opynfec/api_wrapper.py:31 | right-stripping slashes put after a string that does not end with `/` gives that string back |
| Requests.StripPadded | src/opynfec/api_wrapper.py:31 | stripping a string with no edge slash, padded with slashes on both sides, gives it back |
| Requests.StripIgnoresEdgeSlashes | src/opynfec/api_wrapper.py:31 | extra slashes around an endpoint do not change the stripped endpoint |
| Requests.WithApiKey | src/opynfec/api_wrapper.py:29 | `kwargs.update({"api_key": ...})` |
| Requests.Path | src/opynfec/api_wrapper.py:31 | the URL up to its query: the base URL, the stripped endpoint and `/?` |
| Requests.MakeRequest | src/opynfec/api_wrapper.py:29-31 | the request `_get_request` sends: that path, with the parameters and the client's key |
| Requests.ApiKeyOverrides | src/opynfec/api_wrapper.py:29 | the sent parameters are the caller's keys plus `api_key`; the client's key wins and every other parameter is unchanged |
| Requests.SameRequestModuloSlashes | src/opynfec/api_wrapper.py:29-31 | `/e/` and `e` give the same request, and an `api_key` passed by the caller never reaches the server |
| Paging.DefaultPerPage | src/opynfec/api_wrapper.py:48 | the default `per_page` is 100 or result_limit, and at most both |
| Paging.SendIsGetRequest | src/opynfec/api_wrapper.py:13-34 | each fetch of the loop is exactly the request `_get_request` sends for the endpoint |
| Paging.Send | src/opynfec/api_wrapper.py:57 | the reply the server gives to the request for the job's path with the given parameters |
| Paging.InitialParams | src/opynfec/api_wrapper.py:47-49 | `per_page` min(100, result_limit), overridden by the caller's parameters |
| Paging.Shrink | src/opynfec/api_wrapper.py:63-64 | `per_page` becomes result_limit minus the records collected when the next page would reach the limit |
| Paging.Truncate | src/opynfec/api_wrapper.py:60-62 | the result is a prefix of the input, at most result_limit long, exactly that long when the limit is reached, and the whole input otherwise |
| Paging.Advance | src/opynfec/api_wrapper.py:56-65 | one pass sets `page`, sends that request, and either goes on with the next page number, the reported page count and the extended results, or stops with the truncated results or an error |
| Paging.GetUnpaginated | src/opynfec/api_wrapper.py:36-67 | the `while` loop returns the outcome of the loop's specification function |
| Paging.Resume | src/opynfec/api_wrapper.py:55-67 | the loop from a given state, as the list of fetches it makes and its outcome |
| Paging.Unpaginated | src/opynfec/api_wrapper.py:36-67 | the loop from its initial state |
| Paging.ResumeEmpty | src/opynfec/api_wrapper.py:55 | the loop fetches something exactly when the loop guard holds at its start, and otherwise returns what it has |
| Paging.NumberedFromAll | src/opynfec/api_wrapper.py:56 | the recursive numbering of fetches gives fetch `i` the page number `first + i` |
| Paging.ResumeNumbering | src/opynfec/api_wrapper.py:56-65 | fetches from any state are numbered consecutively from its page |
| Paging.ResumeCallLimit | src/opynfec/api_wrapper.py:55 | no page past call_limit is ever fetched |
| Paging.PagesInOrder | src/opynfec/api_wrapper.py:54-65 | pages 1, 2, ..., k are requested once each, in order, with k <= call_limit; nothing is fetched only when call_limit is 0, and then the result is empty |
| Paging.FetchedCons | src/opynfec/api_wrapper.py:58 | the records fetched by a first call followed by others are that call's records followed by theirs |
| Paging.AllSucceededCons | src/opynfec/api_wrapper.py:58 | a successful call before successful calls keeps them all successful |
| Paging.ResumeAllPages | src/opynfec/api_wrapper.py:57-58 | a successful run got a page from every fetch |
| Paging.ResumeResult | src/opynfec/api_wrapper.py:58-62 | a successful run from any state returns what it had plus everything fetched, truncated to result_limit |
| Paging.ResultIsPrefixOfPages | src/opynfec/api_wrapper.py:52-67 | a successful run returns the fetched results in order, cut to result_limit: a prefix, at most result_limit long, exactly that long when the pages held enough, and everything fetched when there is no limit |
| Paging.ResumeFirst | src/opynfec/api_wrapper.py:55-57 | when the guard holds, the first fetch is the current page |
| Paging.ChainedCons | src/opynfec/api_wrapper.py:55-59 | a fetch whose reply allowed the next page, before a chained run, gives a chained run |
| Paging.ResumeChained | src/opynfec/api_wrapper.py:55-59 | each fetch after the first was allowed by the page count reported by the previous reply and by call_limit |
| Paging.LastPagesCons | src/opynfec/api_wrapper.py:59 | the last reported page count of a run is that of its last fetch |
| Paging.ResumeStops | src/opynfec/api_wrapper.py:55 | when a run ends without reaching result_limit, the next page is beyond the reported count or beyond call_limit |
| Paging.StopsAtReportedPages | src/opynfec/api_wrapper.py:53-65 | at least one fetch unless call_limit is 0; every later fetch was allowed by the previous reply's page count; a run that ends short of result_limit ends because the next page is out of range |
| Paging.EachFromAll | src/opynfec/api_wrapper.py:55-65 | a per-fetch fact proved recursively holds for every fetch |
| Paging.AdvanceNext | src/opynfec/api_wrapper.py:56-64 | a pass that continues keeps the caller's other parameters and the numeric `per_page`, and sets `per_page` to what remains when it would overshoot |
| Paging.ResumeForwards | src/opynfec/api_wrapper.py:56-57 | each fetch from any state forwards that state's parameters and has the server's reply to them |
| Paging.ForwardsKwargs | src/opynfec/api_wrapper.py:47-49 | every fetch sends the caller's parameters apart from `page` and `per_page`, the reply is the answer to that request, and the first `per_page` is the caller's or min(100, result_limit) |
| Paging.ResumePerPage | src/opynfec/api_wrapper.py:63-64 | from any state, `per_page` never grows from one fetch to the next |
| Paging.ResumeFits | src/opynfec/api_wrapper.py:63-64 | from a state where `per_page` fits the limit, every fetch fits it |
| Paging.PerPageNeverGrows | src/opynfec/api_wrapper.py:47-64 | `per_page` never grows, and changes only to result_limit minus what was collected; with the default it never overshoots the limit |
| Paging.AdvanceErrors | src/opynfec/api_wrapper.py:57-63 | one pass fails by a failed round trip or by a non-numeric `per_page`, and by nothing else |
| Paging.AbortedByCons | src/opynfec/api_wrapper.py:57-63 | a successful fetch before an aborted run gives an aborted run |
| Paging.ResumeErrors | src/opynfec/api_wrapper.py:57-63 | from any state, a failing run fails at its last fetch, and every earlier fetch got a page |
| Paging.ErrorsAbort | src/opynfec/api_wrapper.py:55-64 | a run fails only by a failed round trip, then its last fetch, or by a non-numeric `per_page`; every earlier fetch got a page |
| Paging.ZeroResultLimit | src/opynfec/api_wrapper.py:48-62 | result_limit 0 makes exactly one fetch, of page 1 with `per_page` 0 unless given, and returns nothing unless that fetch failed |
| OffsetPaging.PageCount | src/opynfec/api_wrapper.py:59 | an offset server reports the least number of pages of that size that hold all its records |
| OffsetPaging.OffsetServerBounded | src/opynfec/api_wrapper.py:55-59 | an offset server's page counts bound every run |
| OffsetPaging.OffsetReply | src/opynfec/api_wrapper.py:56-59 | the reply to page n of size p is records (n-1)p to np and the page count |
| OffsetPaging.OffsetContinues | src/opynfec/api_wrapper.py:56-65 | a continuing pass on an offset server leads to the same outcome |
| OffsetPaging.OffsetStops | src/opynfec/api_wrapper.py:60-62 | a pass that reaches result_limit returns the records so far cut to the limit |
| OffsetPaging.SixFirstPage | src/opynfec/api_wrapper.py:56-65 | on six records with `per_page` 2 and result_limit 5, page 1 continues with records 0-1 |
| OffsetPaging.SixSecondPage | src/opynfec/api_wrapper.py:63-64 | page 2 brings records 2-3 and shrinks `per_page` to 1 |
| OffsetPaging.SixThirdPage | src/opynfec/api_wrapper.py:56-62 | page 3 of size 1 is record 2 again, and the run returns 0, 1, 2, 3, 2 |
| OffsetPaging.ShrinkRepeatsRecords | src/opynfec/api_wrapper.py:63-64 | the loop as written returns records 0, 1, 2, 3, 2 where the first five records are 0 to 4 |
| OffsetPaging.DefaultFirstPage | src/opynfec/api_wrapper.py:48-64 | with the default `per_page` and result_limit 150, page 1 brings records 0-99 and shrinks `per_page` to 50 |
| OffsetPaging.DefaultSecondPage | src/opynfec/api_wrapper.py:56-62 | page 2 of size 50 is records 50-99 again, and the run stops there |
| OffsetPaging.DefaultShrinkRepeats | src/opynfec/api_wrapper.py:48-64 | without any `per_page` from the caller, result_limit 150 returns records 0-99 followed by 50-99 |
| OffsetPaging.AdvanceFixed | src/opynfec/api_wrapper.py:56-62 | one pass without lines 63-64: it keeps `per_page`, goes on exactly when the reply is a page and the limit is not reached, and stops with the truncated results or a transport error |
| OffsetPaging.ResumeFixed | src/opynfec/api_wrapper.py:55-67 | the loop without lines 63-64, from a given state |
| OffsetPaging.UnpaginatedFixed | src/opynfec/api_wrapper.py:36-67 | the loop without lines 63-64, from its initial state |
| OffsetPaging.WindowExtends | src/opynfec/api_wrapper.py:58 | the records before page n, followed by page n, are the records up to page n |
| OffsetPaging.StopReach | src/opynfec/api_wrapper.py:55 | when the loop guard fails, what was fetched is all the records or what call_limit pages hold |
| OffsetPaging.FetchReach | src/opynfec/api_wrapper.py:55 | no allowed page reaches past that bound |
| OffsetPaging.TruncateLonger | src/opynfec/api_wrapper.py:60-62 | once the limit is reached, cutting a longer prefix gives the same records |
| OffsetPaging.FixedStep | src/opynfec/api_wrapper.py:56-62 | a pass without the shrink extends a prefix of the records to a longer prefix |
| OffsetPaging.FixedNext | src/opynfec/api_wrapper.py:56-65 | a continuing pass without the shrink keeps the state a prefix and leaves the outcome unchanged |
| OffsetPaging.FixedHalt | src/opynfec/api_wrapper.py:60-62 | a stopping pass without the shrink returns the first records cut to result_limit |
| OffsetPaging.FixedHalts | src/opynfec/api_wrapper.py:55-62 | a pass that stops ends the run with its outcome |
| OffsetPaging.ResumeFixedOffset | src/opynfec/api_wrapper.py:52-67 | from any prefix state, the loop without the shrink returns the first records cut to result_limit |
| OffsetPaging.FixedReturnsFirstRecords | src/opynfec/api_wrapper.py:52-67 | without lines 63-64 the loop returns the first records of the list, as many as call_limit pages hold, cut to result_limit |
| OffsetPaging.FixedOnSixRecords | src/opynfec/api_wrapper.py:52-67 | on the six records the corrected loop returns records 0 to 4 |
| Legacy.LegacyAdvance | opyn_fec.py:44-49 | one pass sets `page`, sends that request, and goes on exactly when the reply is a page, with the reported count and the extended results |
| Legacy.GetAllPages | opyn_fec.py:36-51 | the `while` loop returns the outcome of the loop's specification function |
| Legacy.LegacyParams | opyn_fec.py:38-39 | `per_page` 100, overridden by the caller's parameters |
| Legacy.ResumeAll | opyn_fec.py:41-51 | the older loop from a given state, as its fetches and its outcome |
| Legacy.FetchAll | opyn_fec.py:36-51 | the older loop from its initial state |
| Legacy.ResumeAllResult | opyn_fec.py:44-51 | a successful run from any state returns what it had plus every fetched result, with nothing cut |
| Legacy.LegacyReturnsEverything | opyn_fec.py:36-51 | at least one fetch; success returns all results of all pages in order; failure is a transport error at the last fetch |
| Legacy.ResumeAllFetches | opyn_fec.py:44-49 | fetches from any state are numbered consecutively from its page |
| Legacy.ResumeAllFirst | opyn_fec.py:44-46 | when the guard holds, the first fetch is the current page |
| Legacy.ResumeAllChained | opyn_fec.py:44-48 | each fetch after the first was allowed by the page count reported before it |
| Legacy.ResumeAllStops | opyn_fec.py:44 | a successful run ends because the next page is past the last reported count |
| Legacy.LegacyPagesInOrder | opyn_fec.py:42-49 | pages 1, 2, ... in order, each allowed by the previous count, and a successful run makes at least as many fetches as the last reported count |
| Legacy.LegacyForwardsKwargs | opyn_fec.py:38-46 | every fetch sends the caller's other parameters, the reply answers that request, and the first `per_page` is the caller's or 100 |
| Legacy.ResumeAgrees | opyn_fec.py:44-49 | with a numeric `per_page` and no limits, a pass of the limited loop equals a pass of this loop |
| Legacy.LaterLoopAgrees | src/opynfec/api_wrapper.py:36-67 | with no limits and a numeric or absent `per_page`, the limited loop fetches and returns exactly what the older loop does |
| Legacy.LaterLoopRejectsTextPerPage | src/opynfec/api_wrapper.py:63 | a non-numeric `per_page` that the older loop would forward makes the limited loop raise `TypeError` after its first page |
| Endpoints.History | src/opynfec/api_wrapper.py:130-133 | the history endpoint adds `/history`, then `/<cycle>` when `cycle` is truthy, and `cycle` never reaches the query |
| Endpoints.SegmentsDiffer | src/opynfec/api_wrapper.py:251-253 | paths whose next segments start differently differ |
| Endpoints.Candidate | src/opynfec/api_wrapper.py:125-139 | `ValueError` exactly for `history` with `totals`; otherwise the plain, `/totals` or history endpoint, as the flags say, through the limited loop |
| Endpoints.Candidates | src/opynfec/api_wrapper.py:201-220 | `ValueError` exactly when `search` comes with `totals`, `by_office` or `by_party`; otherwise one of the five endpoints, with the caller's parameters |
| Endpoints.Committee | src/opynfec/api_wrapper.py:230-238 | the committee endpoint, or its history endpoint when `history` is set |
| Endpoints.Committees | src/opynfec/api_wrapper.py:248-259 | `committees`, or the candidate's `/committees` endpoint, with its history when asked |
| Endpoints.Search | src/opynfec/api_wrapper.py:285-290 | `ValueError` exactly for a category other than candidates and committees; otherwise one page of `names/<category>` with only `q` |
| Endpoints.UnusedFlagsIgnored | src/opynfec/api_wrapper.py:201-220 | flags read only under another flag change nothing on their own |
| Endpoints.ChainedGuardNeverHolds | src/opynfec/api_wrapper.py:335 | the chained comparison `by_entity == entity_type is None` is false for every input |
| Endpoints.ChainedGuard | src/opynfec/api_wrapper.py:335 | the guard as Python reads it: `by_entity == entity_type and entity_type is None` |
| Endpoints.TotalsAsWritten | src/opynfec/api_wrapper.py:333-343 | the `totals` branch as written: `by_entity` wins, `entity_type` otherwise, and neither gives `TypeError` |
| Endpoints.TotalsChecked | src/opynfec/api_wrapper.py:333-343 | the `totals` branch as intended: `ValueError` exactly when both or neither are given |
| Endpoints.FinancialOther | src/opynfec/api_wrapper.py:321-344 | the branches without `committee_id`: elections, reports, the given `totals` branch, else `ValueError` |
| Endpoints.FinancialWith | src/opynfec/api_wrapper.py:306-348 | `financial` with a given `totals` branch: the `committee_id` checks and routes first, then the other branches |
| Endpoints.Financial | src/opynfec/api_wrapper.py:306-348 | as written: `ValueError` for `committee_id` with `entity_type`, the committee's reports or totals, and the chained `totals` guard that never fires; every other route is stated by `Endpoints.FinancialRoutes` |
| Endpoints.FinancialChecked | src/opynfec/api_wrapper.py:306-348 | as intended: only `ValueError`, and the `totals` branch raises exactly when both or neither of `by_entity` and `entity_type` are given; its routes are stated by `Endpoints.FinancialRoutes` |
| Endpoints.FinancialGuardFinding | src/opynfec/api_wrapper.py:333-343 | the two versions differ exactly in the `totals` branch when both or neither are given: the written one returns `totals/by_entity` or raises `TypeError` where the intended one raises `ValueError` |
| Endpoints.FinancialRouted | src/opynfec/api_wrapper.py:311-344 | the routes of `financial` in the order its branches are tried: a committee's reports or totals, then `elections/search`, `elections/summary` or `elections`, then `reports/<entity_type>`, then `totals/by_entity` or `totals/<entity_type>`, else `ValueError` |
| Endpoints.FinancialRoutes | src/opynfec/api_wrapper.py:306-348 | both versions of `financial` take every route of that order: `search` wins over `summary`, `reports` without `entity_type` raises `ValueError`, and a lone `entity_type` under `totals` gives `totals/<entity_type>` |
| Endpoints.FinancialNeedsEndpoint | src/opynfec/api_wrapper.py:343-344 | with no committee and none of `elections`, `reports`, `totals`, both versions raise `ValueError` |
| Endpoints.Receipts | src/opynfec/api_wrapper.py:365-404 | `ValueError` exactly when more than one exclusive flag is set; otherwise a schedule A endpoint with the caller's parameters |
| Endpoints.ReceiptFlagsSet | src/opynfec/api_wrapper.py:367-377 | `sum(mutually_exclusive)`: how many of the exclusive flags are set |
| Endpoints.ReceiptsSuffix | src/opynfec/api_wrapper.py:379-400 | the `elif` chain that extends the schedule A endpoint |
| Endpoints.ReceiptsRoutes | src/opynfec/api_wrapper.py:379-400 | each set flag alone decides the endpoint; `by_candidate` and `totals` only add to `by_size` and `by_state` |
| Endpoints.Disbursements | src/opynfec/api_wrapper.py:417-441 | `ValueError` exactly when more than one exclusive flag is set; otherwise a schedule B endpoint |
| Endpoints.DisbursementFlagsSet | src/opynfec/api_wrapper.py:417-425 | how many of the exclusive flags of `disbursements` are set |
| Endpoints.DisbursementsSuffix | src/opynfec/api_wrapper.py:427-437 | the `elif` chain that extends the schedule B endpoint |
| Endpoints.DisbursementsRoutes | src/opynfec/api_wrapper.py:427-437 | each set flag alone decides the endpoint |
| OpynFec.Candidate | opyn_fec.py:103-115 | `ValueError` exactly for `history` with `totals`; otherwise the fetch-everything loop |
| OpynFec.Candidates | opyn_fec.py:175-192 | `ValueError` exactly when `search` comes with another flag; otherwise the caller's parameters with the fetch-everything loop |
| OpynFec.Committee | opyn_fec.py:197-203 | the fetch-everything loop, with the caller's parameters when there is no history |
| OpynFec.Committees | opyn_fec.py:208-217 | `committees` with the caller's parameters when no candidate is given |
| OpynFec.Search | opyn_fec.py:243-248 | `ValueError` exactly for an unknown category; otherwise one page |
| OpynFec.SameSelectionAsCurrent | opyn_fec.py:103-248 | the older selectors reject the same calls and choose the same endpoints and parameters as the current ones, with the fetch-everything loop in place of the limited one |
| OpynFec.CommitteesIsCandidate | opyn_fec.py:211-217 | for a candidate, the older `committees` requests exactly what `candidate` requests |
| OpynFec.HistoryMissesSegment | opyn_fec.py:211-216 | the history endpoint of a path never equals that of the path with `/committees` appended |
| OpynFec.CommitteesMissesSegment | opyn_fec.py:211 | for a candidate, the older `committees` never requests the endpoint the current one requests |
| OpenFec.Candidate | open_fec.py:85-97 | `ValueError` exactly for `history` with `totals`; otherwise the `results` of one request |
| OpenFec.Candidates | open_fec.py:107-122 | `ValueError` exactly when `search` comes with another flag; otherwise one request with the caller's parameters |
| OpenFec.Search | open_fec.py:148-153 | `ValueError` exactly for an unknown category; otherwise one page |
| OpenFec.SameSelectionAsCurrent | open_fec.py:85-153 | the first client rejects the same calls and chooses the same endpoints as the current one, reading only the first page |
| FecWrapper.Candidate | fec_api_wrapper.py:55-56 | the candidate endpoint with the caller's parameters, returning the first result |
| FecWrapper.CandidateHistory | fec_api_wrapper.py:97-100 | `/history`, then `/<cycle>` exactly when a cycle is given, with the caller's parameters |
| FecWrapper.Search | fec_api_wrapper.py:126-131 | `ValueError` exactly for an unknown category; otherwise one page |
| FecWrapper.CycleTests | fec_api_wrapper.py:97-99 | a nonzero cycle gives the same history endpoint as the current client; cycle 0 is appended here but dropped there |
| Wrapper.OneRequest | src/opynfec/api_wrapper.py:290 | a single request returns the page's `results`, or its first result (`IndexError` when there is none), or the transport error |
| Wrapper.Perform | src/opynfec/api_wrapper.py:137-139 | a public method returns the selector's error, or what the chosen loop or single request returns |
| Wrapper.Outcome | src/opynfec/api_wrapper.py:137-139 | what a public method returns for the selector's choice |
| Wrapper.RejectedBeforeAnyRequest | src/opynfec/api_wrapper.py:127-128 | a selector that raises returns that error whatever the server would answer |
| GraphExport.IdOrFresh | sample_data/reformat_for_nodes.py:36-45 | an id that is not `None` is kept; `None` draws the next fresh id |
| GraphExport.Contributor | sample_data/reformat_for_nodes.py:116-130 | a donation with a contributor committee is from that committee; otherwise from an individual with its own id, or a fresh one |
| GraphExport.AddCommitteeDonation | sample_data/reformat_for_nodes.py:35-70 | one pass of the first loop: the source and target committee nodes and the edge between them |
| GraphExport.AddCommitteeDonations | sample_data/reformat_for_nodes.py:35-70 | the first loop |
| GraphExport.CandidateNode | sample_data/reformat_for_nodes.py:72-84 | the candidate's node, with its id or a fresh one |
| GraphExport.AddPrincipal | sample_data/reformat_for_nodes.py:86-106 | a principal committee's node and its edge to the candidate |
| GraphExport.AddPrincipals | sample_data/reformat_for_nodes.py:86-106 | the inner loop over principal committees |
| GraphExport.AddCandidate | sample_data/reformat_for_nodes.py:72-106 | one pass of the second loop |
| GraphExport.AddCandidates | sample_data/reformat_for_nodes.py:72-106 | the second loop |
| GraphExport.AddIndividualDonation | sample_data/reformat_for_nodes.py:108-155 | one pass of the third loop: the contributor and committee nodes and the edge with amount and load date |
| GraphExport.AddIndividualDonations | sample_data/reformat_for_nodes.py:108-155 | the third loop |
| GraphExport.Export | sample_data/reformat_for_nodes.py:33-155 | the three loops in order, starting from empty lists and no ids drawn |
| GraphExport.Reformat | sample_data/reformat_for_nodes.py:33-155 | the three loops build exactly the nodes and edges of the export function |
| GraphExport.CommitteeDonationsGrow | sample_data/reformat_for_nodes.py:35-70 | each committee donation adds two nodes and one edge |
| GraphExport.PrincipalsGrow | sample_data/reformat_for_nodes.py:86-106 | each principal committee adds one node and one edge |
| GraphExport.CandidateGrows | sample_data/reformat_for_nodes.py:72-106 | a candidate adds one node plus one per principal committee, and one edge per principal committee |
| GraphExport.CandidatesGrow | sample_data/reformat_for_nodes.py:72-106 | the candidates add their nodes and edges and keep what came before |
| GraphExport.IndividualDonationsGrow | sample_data/reformat_for_nodes.py:108-155 | each individual donation adds two nodes and one edge |
| GraphExport.ExportCounts | sample_data/reformat_for_nodes.py:33-155 | the edges are one per donation and principal committee; the nodes are two per donation, one per candidate and one per principal committee |
| GraphExport.KnownKindsAppend | sample_data/reformat_for_nodes.py:47-61 | node kinds stay known when lists are joined |
| GraphExport.PrincipalsKinds | sample_data/reformat_for_nodes.py:92-98 | principal committees add only committee nodes |
| GraphExport.CommitteeDonationsKinds | sample_data/reformat_for_nodes.py:47-61 | committee donations add only committee nodes |
| GraphExport.CandidatesKinds | sample_data/reformat_for_nodes.py:78-98 | candidates add only candidate and committee nodes |
| GraphExport.IndividualDonationsKinds | sample_data/reformat_for_nodes.py:132-146 | individual donations add only individual and committee nodes |
| GraphExport.ExportKinds | sample_data/reformat_for_nodes.py:33-155 | every node is a candidate, a committee or an individual |
| GraphExport.VerbatimOrFreshWider | sample_data/reformat_for_nodes.py:36-45 | an id drawn in a range of draws was drawn in any wider range |
| GraphExport.DonationShownKept | sample_data/reformat_for_nodes.py:47-70 | later appends leave a donation's nodes and edge in place |
| GraphExport.CommitteeDonationShown | sample_data/reformat_for_nodes.py:35-70 | a committee donation appends its two committee nodes and its edge from source to target with its total and no date |
| GraphExport.CommitteeDonationsShown | sample_data/reformat_for_nodes.py:35-70 | donation j is shown at nodes 2j and 2j+1 and edge j |
| GraphExport.IndividualShownKept | sample_data/reformat_for_nodes.py:132-155 | later appends leave an individual donation's nodes and edge in place |
| GraphExport.IndividualDonationShown | sample_data/reformat_for_nodes.py:108-155 | an individual donation appends its contributor, its committee and an edge with amount and load date |
| GraphExport.IndividualDonationsShown | sample_data/reformat_for_nodes.py:108-155 | individual donation j is shown at nodes 2j and 2j+1 and edge j of its part |
| GraphExport.PrincipalShownKept | sample_data/reformat_for_nodes.py:92-106 | later appends leave a principal committee's node and edge in place |
| GraphExport.PrincipalsShown | sample_data/reformat_for_nodes.py:86-106 | principal committee i is a committee node with an edge to the candidate, at the i-th place |
| GraphExport.CandidateShownKept | sample_data/reformat_for_nodes.py:72-106 | later appends leave a candidate's nodes and edges in place |
| GraphExport.CandidateRecordShown | sample_data/reformat_for_nodes.py:72-106 | a candidate appends its node, then its principal committees linked to it |
| GraphExport.CandidatesShown | sample_data/reformat_for_nodes.py:72-106 | candidate k is shown after the nodes and edges of the candidates before it |
| GraphExport.ExportShowsCommitteeDonation | sample_data/reformat_for_nodes.py:35-70 | in the export, committee donation j is at nodes 2j, 2j+1 and edge j |
| GraphExport.ExportShowsCandidate | sample_data/reformat_for_nodes.py:72-106 | in the export, each candidate and its principal committees follow the committee donations and earlier candidates |
| GraphExport.ExportShowsIndividualDonation | sample_data/reformat_for_nodes.py:108-155 | in the export, individual donation j follows everything before it, at two nodes and one edge |
| GraphExport.RepeatsKept | sample_data/reformat_for_nodes.py:35-70 | nothing is merged: a donation listed twice gives its nodes and edge twice |

## Left out

- The HTTP round trip, `urlencode` and the base URL's network access are not modelled. The server is a function parameter from a request (path and parameters) to a reply. A failed reply stands for both a transport error and the HTTP error of `raise_for_status`.
- `fec_api_wrapper.py` does not call `raise_for_status`. An HTTP error there would surface later, as a missing `results` key. The model treats it as the same failed reply.
- JSON decoding of responses: a reply is already its `results` and `pagination.pages`. A response without those keys (a `KeyError`) is not modelled.
- Paging.GetUnpaginated, Legacy.GetAllPages, Wrapper.Perform: termination rests on a ghost bound `maxPages`. A server may report page counts only up to that bound. A server that reports ever-growing page counts, and so keeps the loop running forever, is not modelled.
- Negative `call_limit` and `result_limit` are not modelled. Both are `nat`, since Python slicing with a negative limit has other meanings the source does not intend.
- Values.Format: list items that are strings are always quoted with `'`. Python's `repr` switches to `"` for a string that holds `'` and escapes backslashes and control characters; that choice and that escaping are not modelled. It shows only in a history path built from a `cycle` given as such a list.
- `math.inf` is `None` in an `Option`, and no floating point is modelled.
- A `per_page` given as a float is not modelled. Values are `None`, bool, int, str and lists.
- Keyword arguments that collide with named parameters (a `TypeError` in Python before the call) are not modelled.
- `uuid.uuid4()` is a supply of ids `newId`. Distinctness of the drawn ids is not modelled.
- The reading of the three JSON input files and the writing of `nodes.json` and `edges.json` are not modelled. Records are given as datatypes, and a missing key in a record (a `KeyError`) is not modelled.
- `sample_data/to_single_json.py` holds the same code as `sample_data/reformat_for_nodes.py` and is covered by the same model.
- `opynfec/api_wrapper.py` and `src/opynfec/api_wrapper.py` are the same file. Rows cite the latter.

## Findings

| source | as written | input that shows it | evidently intended | confidence | as-written member | corrected member |
|---|---|---|---|---|---|---|
| src/opynfec/api_wrapper.py:63-64 | shrinking `per_page` mid-run changes the page size, so page n of the new size starts at another offset than the records collected | a server of six records, `per_page` 2, result_limit 5: the run returns records 0, 1, 2, 3, 2; with no `per_page` and result_limit 150 it returns records 0-99 then 50-99 | the first result_limit records, each once | high (proved on the model of an offset server; not executed) | OffsetPaging.ShrinkRepeatsRecords | OffsetPaging.FixedReturnsFirstRecords |
| src/opynfec/api_wrapper.py:335 | `by_entity == entity_type is None` chains into `by_entity == entity_type and entity_type is None`, which never holds | `totals=True, by_entity=True, entity_type="pac"` requests `totals/by_entity`; `totals=True` with neither requests `"totals/" + None`, a `TypeError` | `ValueError` when both or neither of `by_entity` and `entity_type` are given | high (not executed) | Endpoints.FinancialGuardFinding | Endpoints.FinancialChecked |
| opyn_fec.py:211 | `committees(candidate_id=...)` builds `candidate/<id>` without `/committees` | `committees("P123")` requests the candidate itself, `candidate/P123` | `candidate/<id>/committees`, as in src/opynfec/api_wrapper.py:251 | medium (not executed) | OpynFec.CommitteesMissesSegment | Endpoints.Committees |
